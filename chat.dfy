/** ChatRoomServiceImpl: chat rooms of a group, their membership records
    and the guards on creating, joining, leaving and reading a room. The
    current time is a parameter; rooms get consecutive ids in creation
    order. */
module Chat {
  import opened Wrappers

  /** A user account as the service reads it. */
  datatype UserInfo = UserInfo(id: int, email: string, nickname: string)

  datatype ChatRoom = ChatRoom(groupId: int, roomName: string, description: string,
                               maxParticipants: Option<int>, isActive: bool, createdBy: int)

  datatype MemberRole = Admin | Member

  /** A ChatMember record; a timestamp the service does not set is None,
      which stands for the entity's own default. */
  datatype ChatMember = ChatMember(role: MemberRole, isActive: bool, joinedAt: Option<int>, leftAt: Option<int>)

  datatype ChatRoomDto = ChatRoomDto(id: int, groupId: int, roomName: string, description: string,
                                     maxParticipants: Option<int>, currentParticipants: int,
                                     isActive: bool, createdBy: int, creatorNickname: string)

  datatype ChatError =
    | UserNotFound      // 사용자를 찾을 수 없습니다
    | NotGroupMember    // 그룹에 속해있지 않은 사용자입니다
    | DuplicateRoomName // 이미 존재하는 채팅방 이름입니다
    | RoomNotFound      // 채팅방을 찾을 수 없습니다
    | AlreadyJoined     // 이미 참여중인 채팅방입니다
    | RoomFull          // 채팅방 인원이 가득 찼습니다
    | NotRoomMember     // 채팅방에 참여하지 않은 사용자입니다

  /** userRepository.findByEmail: the first account with that email. */
  function FindByEmail(users: seq<UserInfo>, email: string): (u: Option<UserInfo>)
    ensures u.Some? ==> u.value in users && u.value.email == email
    ensures u.None? ==> forall i :: 0 <= i < |users| ==> users[i].email != email
  {
    if |users| == 0 then None
    else if users[0].email == email then Some(users[0])
    else FindByEmail(users[1..], email)
  }

  /** The nickname of the first account with that id, if any. */
  function NicknameById(users: seq<UserInfo>, id: int): (n: Option<string>)
    ensures n.Some? ==> exists i :: 0 <= i < |users| && users[i].id == id && users[i].nickname == n.value
    ensures n.None? ==> forall i :: 0 <= i < |users| ==> users[i].id != id
  {
    if |users| == 0 then None
    else if users[0].id == id then Some(users[0].nickname)
    else
      var n := NicknameById(users[1..], id);
      if n.None? then n
      else
        var j :| 0 <= j < |users[1..]| && users[1..][j].id == id && users[1..][j].nickname == n.value;
        assert users[j + 1] == users[1..][j];
        n
  }

  /** The users holding an active membership record of a room. */
  function ActiveUsers(members: map<(int, int), ChatMember>, roomId: int): (s: set<int>)
    ensures forall u :: u in s <==> (roomId, u) in members && members[(roomId, u)].isActive
  {
    set k | k in members && k.0 == roomId && members[k].isActive :: k.1
  }

  /** chatMemberRepository.countActiveMembers. */
  function ActiveCount(members: map<(int, int), ChatMember>, roomId: int): nat {
    |ActiveUsers(members, roomId)|
  }

  /** Activating the record of a user who was not active in the room
      raises the room's count by one and leaves every other room's. */
  lemma ActivateAddsOne(members: map<(int, int), ChatMember>, roomId: int, userId: int, m: ChatMember)
    requires m.isActive
    requires (roomId, userId) !in members || !members[(roomId, userId)].isActive
    ensures ActiveCount(members[(roomId, userId) := m], roomId) == ActiveCount(members, roomId) + 1
    ensures forall r :: r != roomId ==> ActiveUsers(members[(roomId, userId) := m], r) == ActiveUsers(members, r)
  {
    var after := members[(roomId, userId) := m];
    assert ActiveUsers(after, roomId) == ActiveUsers(members, roomId) + {userId};
    assert userId !in ActiveUsers(members, roomId);
  }

  /** Deactivating an active record lowers the room's count by one and
      leaves every other room's. */
  lemma DeactivateRemovesOne(members: map<(int, int), ChatMember>, roomId: int, userId: int, m: ChatMember)
    requires !m.isActive
    requires (roomId, userId) in members && members[(roomId, userId)].isActive
    ensures ActiveCount(members[(roomId, userId) := m], roomId) + 1 == ActiveCount(members, roomId)
    ensures forall r :: r != roomId ==> ActiveUsers(members[(roomId, userId) := m], r) == ActiveUsers(members, r)
  {
    var after := members[(roomId, userId) := m];
    assert ActiveUsers(members, roomId) == ActiveUsers(after, roomId) + {userId};
    assert userId !in ActiveUsers(after, roomId);
  }

  /** A room nobody holds a record of has no active member. */
  lemma NoRecordsNoCount(members: map<(int, int), ChatMember>, roomId: int)
    requires forall k :: k in members ==> k.0 != roomId
    ensures ActiveCount(members, roomId) == 0
  {
    assert ActiveUsers(members, roomId) == {};
  }

  /** existsByGroupIdAndRoomNameAndIsActiveTrue. */
  predicate NameTaken(rooms: seq<ChatRoom>, groupId: int, roomName: string) {
    exists i :: 0 <= i < |rooms| && rooms[i].isActive && rooms[i].groupId == groupId && rooms[i].roomName == roomName
  }

  /** findByIdAndIsActiveTrue. */
  predicate ActiveRoom(rooms: seq<ChatRoom>, roomId: int) {
    0 <= roomId < |rooms| && rooms[roomId].isActive
  }

  /** convertToDto. */
  function ToDto(id: int, room: ChatRoom, creatorNickname: string, participantCount: int): (d: ChatRoomDto)
    ensures d.id == id && d.currentParticipants == participantCount && d.creatorNickname == creatorNickname
    ensures d.groupId == room.groupId && d.roomName == room.roomName && d.createdBy == room.createdBy
  {
    ChatRoomDto(id, room.groupId, room.roomName, room.description, room.maxParticipants,
                participantCount, room.isActive, room.createdBy, creatorNickname)
  }

  /** The ids getRooms lists: the active rooms, of one group when a group
      id is given, in id order. */
  function ListedRooms(rooms: seq<ChatRoom>, groupId: Option<int>, from: nat): (ids: seq<int>)
    requires from <= |rooms|
    decreases |rooms| - from
    ensures forall i :: 0 <= i < |ids| ==> from <= ids[i] < |rooms|
    ensures forall id :: id in ids <==>
      (from <= id < |rooms| && rooms[id].isActive && (groupId.Some? ==> rooms[id].groupId == groupId.value))
    ensures forall i, j :: 0 <= i < j < |ids| ==> ids[i] < ids[j]
  {
    if from == |rooms| then []
    else
      var rest := ListedRooms(rooms, groupId, from + 1);
      if rooms[from].isActive && (groupId.None? || rooms[from].groupId == groupId.value) then [from] + rest
      else rest
  }

  /** countActiveMembersByRoomIds: a grouped count, so a room without any
      active member has no entry at all. */
  function CountActiveByRoomIds(members: map<(int, int), ChatMember>, ids: seq<int>): (m: map<int, int>)
    ensures forall id :: id in m <==> id in ids && ActiveCount(members, id) > 0
  {
    map id | id in ids && ActiveCount(members, id) > 0 :: ActiveCount(members, id)
  }

  /** The row getRooms builds for one room: a missing count becomes 0 and
      a missing creator becomes "Unknown". */
  function RoomRow(id: int, room: ChatRoom, counts: map<int, int>, users: seq<UserInfo>): (d: ChatRoomDto)
    ensures d.currentParticipants == GetOrDefault(counts, id, 0)
    ensures d.creatorNickname == NicknameById(users, room.createdBy).GetOr("Unknown")
    ensures d.id == id && d.roomName == room.roomName && d.groupId == room.groupId
  {
    ToDto(id, room, NicknameById(users, room.createdBy).GetOr("Unknown"), GetOrDefault(counts, id, 0))
  }

  class ChatRoomService {
    var users: seq<UserInfo>
    /** Active group memberships as (groupId, userId). */
    var groupMembers: set<(int, int)>
    /** The rooms; a room's id is its index. */
    var rooms: seq<ChatRoom>
    /** Membership records keyed by (roomId, userId). */
    var members: map<(int, int), ChatMember>

    /** Every membership record belongs to an existing room. */
    ghost predicate Valid()
      reads this
    {
      forall k :: k in members ==> 0 <= k.0 < |rooms|
    }

    constructor (users: seq<UserInfo>, groupMembers: set<(int, int)>)
      ensures Valid()
      ensures this.users == users && this.groupMembers == groupMembers
      ensures rooms == [] && members == map[]
    {
      this.users := users;
      this.groupMembers := groupMembers;
      rooms := [];
      members := map[];
    }

    /** createRoom: the caller must be an active member of the group and the
        name must be free among the group's active rooms; the creator joins
        as an active ADMIN and the answer counts one participant. */
    method CreateRoom(groupId: int, roomName: string, description: string, maxParticipants: Option<int>,
                      username: string) returns (r: Result<ChatRoomDto, ChatError>)
      requires Valid()
      modifies this
      ensures Valid()
      ensures users == old(users) && groupMembers == old(groupMembers)
      ensures FindByEmail(users, username).None? ==> r == Err(UserNotFound)
      ensures FindByEmail(users, username).Some? ==>
        var uid := FindByEmail(users, username).value.id;
        && ((groupId, uid) !in groupMembers ==> r == Err(NotGroupMember))
        && ((groupId, uid) in groupMembers && NameTaken(old(rooms), groupId, roomName) ==> r == Err(DuplicateRoomName))
        && ((groupId, uid) in groupMembers && !NameTaken(old(rooms), groupId, roomName) ==> r.Ok?)
      ensures r.Err? ==> rooms == old(rooms) && members == old(members)
      ensures r.Ok? ==>
        var u := FindByEmail(users, username).value;
        var id := |old(rooms)|;
        && rooms == old(rooms) + [ChatRoom(groupId, roomName, description, maxParticipants, true, u.id)]
        && members == old(members)[(id, u.id) := ChatMember(Admin, true, None, None)]
        && r.value == ToDto(id, rooms[id], u.nickname, 1)
        && ActiveCount(members, id) == 1
    {
      var found := FindByEmail(users, username);
      if found.None? {
        return Err(UserNotFound);
      }
      var u := found.value;
      if (groupId, u.id) !in groupMembers {
        return Err(NotGroupMember);
      }
      if NameTaken(rooms, groupId, roomName) {
        return Err(DuplicateRoomName);
      }
      var id := |rooms|;
      NoRecordsNoCount(members, id);
      ActivateAddsOne(members, id, u.id, ChatMember(Admin, true, None, None));
      rooms := rooms + [ChatRoom(groupId, roomName, description, maxParticipants, true, u.id)];
      members := members[(id, u.id) := ChatMember(Admin, true, None, None)];
      r := Ok(ToDto(id, rooms[id], u.nickname, 1));
    }

    /** joinRoom: a former member is reactivated without a capacity check;
        an active member is refused; a newcomer is refused when the room has
        a maximum and is full, and otherwise joins as an active MEMBER. */
    method JoinRoom(roomId: int, username: string, now: int) returns (err: Option<ChatError>)
      requires Valid()
      modifies this
      ensures Valid()
      ensures users == old(users) && groupMembers == old(groupMembers) && rooms == old(rooms)
      ensures err.Some? ==> members == old(members)
      ensures FindByEmail(users, username).None? ==> err == Some(UserNotFound)
      ensures FindByEmail(users, username).Some? ==>
        var uid := FindByEmail(users, username).value.id;
        var k := (roomId, uid);
        && (!ActiveRoom(rooms, roomId) ==> err == Some(RoomNotFound))
        && (ActiveRoom(rooms, roomId) && (rooms[roomId].groupId, uid) !in groupMembers ==> err == Some(NotGroupMember))
        && (ActiveRoom(rooms, roomId) && (rooms[roomId].groupId, uid) in groupMembers ==>
              && (k in old(members) && old(members)[k].isActive ==> err == Some(AlreadyJoined))
              && (k in old(members) && !old(members)[k].isActive ==>
                    err.None? && members == old(members)[k := old(members)[k].(isActive := true, joinedAt := Some(now), leftAt := None)])
              && ((k !in old(members) && rooms[roomId].maxParticipants.Some?
                   && ActiveCount(old(members), roomId) >= rooms[roomId].maxParticipants.value) ==> err == Some(RoomFull))
              && ((k !in old(members) && (rooms[roomId].maxParticipants.None?
                   || ActiveCount(old(members), roomId) < rooms[roomId].maxParticipants.value)) ==>
                    err.None? && members == old(members)[k := ChatMember(Member, true, None, None)]))
      ensures err.None? ==> ActiveCount(members, roomId) == ActiveCount(old(members), roomId) + 1
    {
      var found := FindByEmail(users, username);
      if found.None? {
        return Some(UserNotFound);
      }
      var uid := found.value.id;
      if !ActiveRoom(rooms, roomId) {
        return Some(RoomNotFound);
      }
      if (rooms[roomId].groupId, uid) !in groupMembers {
        return Some(NotGroupMember);
      }
      var k := (roomId, uid);
      if k in members {
        var m := members[k];
        if !m.isActive {
          var back := m.(isActive := true, joinedAt := Some(now), leftAt := None);
          ActivateAddsOne(members, roomId, uid, back);
          members := members[k := back];
          return None;
        }
        return Some(AlreadyJoined);
      }
      var currentCount := ActiveCount(members, roomId);
      var max := rooms[roomId].maxParticipants;
      if max.Some? && currentCount >= max.value {
        return Some(RoomFull);
      }
      ActivateAddsOne(members, roomId, uid, ChatMember(Member, true, None, None));
      members := members[k := ChatMember(Member, true, None, None)];
      err := None;
    }

    /** leaveRoom: only an active member may leave; the record turns
        inactive with the leaving time. The room itself is not looked up. */
    method LeaveRoom(roomId: int, username: string, now: int) returns (err: Option<ChatError>)
      requires Valid()
      modifies this
      ensures Valid()
      ensures users == old(users) && groupMembers == old(groupMembers) && rooms == old(rooms)
      ensures err.Some? ==> members == old(members)
      ensures FindByEmail(users, username).None? ==> err == Some(UserNotFound)
      ensures FindByEmail(users, username).Some? ==>
        var k := (roomId, FindByEmail(users, username).value.id);
        && (k !in old(members) || !old(members)[k].isActive ==> err == Some(NotRoomMember))
        && (k in old(members) && old(members)[k].isActive ==>
              err.None? && members == old(members)[k := old(members)[k].(isActive := false, leftAt := Some(now))])
      ensures err.None? ==> ActiveCount(members, roomId) + 1 == ActiveCount(old(members), roomId)
    {
      var found := FindByEmail(users, username);
      if found.None? {
        return Some(UserNotFound);
      }
      var k := (roomId, found.value.id);
      if k !in members || !members[k].isActive {
        return Some(NotRoomMember);
      }
      var gone := members[k].(isActive := false, leftAt := Some(now));
      DeactivateRemovesOne(members, roomId, found.value.id, gone);
      members := members[k := gone];
      err := None;
    }

    /** getMessages' guard: only an active member of the room may read its
        messages. */
    function MessagesGuard(roomId: int, username: string): (err: Option<ChatError>)
      reads this
      ensures FindByEmail(users, username).None? ==> err == Some(UserNotFound)
      ensures FindByEmail(users, username).Some? ==>
        (err.None? <==> FindByEmail(users, username).value.id in ActiveUsers(members, roomId))
      ensures err.Some? ==> err == Some(UserNotFound) || err == Some(NotRoomMember)
    {
      var found := FindByEmail(users, username);
      if found.None? then Some(UserNotFound)
      else if (roomId, found.value.id) in members && members[(roomId, found.value.id)].isActive then None
      else Some(NotRoomMember)
    }

    /** getRooms without paging: one row per listed room, in id order. */
    function GetRooms(groupId: Option<int>): (rows: seq<ChatRoomDto>)
      reads this
      ensures |rows| == |ListedRooms(rooms, groupId, 0)|
      ensures forall i :: 0 <= i < |rows| ==>
        var id := ListedRooms(rooms, groupId, 0)[i];
        && rows[i].id == id
        && rows[i].currentParticipants == ActiveCount(members, id)
        && rows[i].creatorNickname == NicknameById(users, rooms[id].createdBy).GetOr("Unknown")
    {
      var ids := ListedRooms(rooms, groupId, 0);
      var counts := CountActiveByRoomIds(members, ids);
      var rs := rooms;
      var us := users;
      assert forall id | id in ids :: GetOrDefault(counts, id, 0) == ActiveCount(members, id);
      seq(|ids|, i requires 0 <= i < |ids| => RoomRow(ids[i], rs[ids[i]], counts, us))
    }
  }

  /** Rejoining skips the capacity check: a full room of two takes back a
      former member and ends up with three. */
  method RejoinExceedsCapacity() returns (s: ChatRoomService)
    ensures |s.rooms| == 1 && s.rooms[0].maxParticipants == Some(2)
    ensures ActiveCount(s.members, 0) == 3
  {
    s := FullRoomWithFormerMember();
    SampleLookups(s.users);
    var e := s.JoinRoom(0, "c", 13);
    assert e.None?;
  }

  /** A room of at most two with two active members, and a third user who
      has left it. */
  method FullRoomWithFormerMember() returns (s: ChatRoomService)
    ensures fresh(s) && s.Valid()
    ensures s.users == [UserInfo(1, "a", "A"), UserInfo(2, "b", "B"), UserInfo(3, "c", "C")]
    ensures (7, 3) in s.groupMembers
    ensures |s.rooms| == 1 && s.rooms[0].maxParticipants == Some(2) && ActiveRoom(s.rooms, 0) && s.rooms[0].groupId == 7
    ensures ActiveCount(s.members, 0) == 2
    ensures (0, 3) in s.members && !s.members[(0, 3)].isActive
  {
    var users := [UserInfo(1, "a", "A"), UserInfo(2, "b", "B"), UserInfo(3, "c", "C")];
    SampleLookups(users);
    s := new ChatRoomService(users, {(7, 1), (7, 2), (7, 3)});
    var r := s.CreateRoom(7, "room", "", Some(2), "a");
    assert r.Ok?;
    assert ActiveRoom(s.rooms, 0);
    var e := s.JoinRoom(0, "c", 10);
    assert e.None?;
    e := s.LeaveRoom(0, "c", 11);
    assert e.None?;
    assert (0, 3) in s.members && !s.members[(0, 3)].isActive;
    e := s.JoinRoom(0, "b", 12);
    assert e.None?;
  }

  /** The lookups of the three sample accounts, by the first-match rule. */
  lemma SampleLookups(users: seq<UserInfo>)
    requires users == [UserInfo(1, "a", "A"), UserInfo(2, "b", "B"), UserInfo(3, "c", "C")]
    ensures FindByEmail(users, "a") == Some(users[0])
    ensures FindByEmail(users, "b") == Some(users[1])
    ensures FindByEmail(users, "c") == Some(users[2])
  {
    FindByEmailFirst(users, "a", 0);
    FindByEmailFirst(users, "b", 1);
    FindByEmailFirst(users, "c", 2);
  }

  /** findByEmail finds the account at the first position holding that
      email, whatever accounts follow it. */
  lemma {:induction false} FindByEmailFirst(users: seq<UserInfo>, email: string, i: nat)
    requires i < |users| && users[i].email == email
    requires forall j :: 0 <= j < i ==> users[j].email != email
    ensures FindByEmail(users, email) == Some(users[i])
  {
    if i > 0 {
      FindByEmailFirst(users[1..], email, i - 1);
    }
  }
}
