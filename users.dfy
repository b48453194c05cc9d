/** The User entity and UserServiceImpl: partial profile and settings
    updates that keep every field whose argument is null, the unique
    nickname search, sign-up through Kakao, and the refresh-token and
    deactivation operations on the user's AuthAccount. The token store of
    TokenService is a map from user id to token. */
module Users {
  import opened Wrappers
  import opened Text

  datatype UserRole = RoleUser | RoleAdmin

  /** Every persistent field of a User (timestamps left out). */
  datatype UserState = UserState(
    userId: Option<int>,
    kakaoId: Option<string>,
    email: Option<string>,
    nickname: string,
    profileMessage: Option<string>,
    profileImageUrl: Option<string>,
    refreshToken: Option<string>,
    isAlarmOn: bool,
    isDarkMode: bool,
    role: UserRole)

  /** User.builder() with the given fields set: alarm on, dark mode off and
      role USER by default, no id before the first save, no token. */
  function Built(kakaoId: Option<string>, email: Option<string>, nickname: string,
                 profileMessage: Option<string>, profileImageUrl: Option<string>): (s: UserState)
    ensures s.isAlarmOn && !s.isDarkMode && s.role == RoleUser
    ensures s.userId.None? && s.refreshToken.None?
    ensures s.kakaoId == kakaoId && s.email == email && s.nickname == nickname
    ensures s.profileMessage == profileMessage && s.profileImageUrl == profileImageUrl
  {
    UserState(None, kakaoId, email, nickname, profileMessage, profileImageUrl, None, true, false, RoleUser)
  }

  /** User.updateProfile on the state: each non-null argument replaces its
      field; nothing else changes. */
  function WithProfile(s: UserState, nickname: Option<string>, profileMessage: Option<string>,
                       profileImageUrl: Option<string>): (r: UserState)
    ensures nickname.Some? ==> r.nickname == nickname.value
    ensures nickname.None? ==> r.nickname == s.nickname
    ensures profileMessage.Some? ==> r.profileMessage == profileMessage
    ensures profileMessage.None? ==> r.profileMessage == s.profileMessage
    ensures profileImageUrl.Some? ==> r.profileImageUrl == profileImageUrl
    ensures profileImageUrl.None? ==> r.profileImageUrl == s.profileImageUrl
    ensures r.(nickname := s.nickname, profileMessage := s.profileMessage, profileImageUrl := s.profileImageUrl) == s
  {
    var s1 := if nickname.Some? then s.(nickname := nickname.value) else s;
    var s2 := if profileMessage.Some? then s1.(profileMessage := profileMessage) else s1;
    if profileImageUrl.Some? then s2.(profileImageUrl := profileImageUrl) else s2
  }

  /** User.updateSettings on the state, with the same null rule. */
  function WithSettings(s: UserState, isAlarmOn: Option<bool>, isDarkMode: Option<bool>): (r: UserState)
    ensures isAlarmOn.Some? ==> r.isAlarmOn == isAlarmOn.value
    ensures isAlarmOn.None? ==> r.isAlarmOn == s.isAlarmOn
    ensures isDarkMode.Some? ==> r.isDarkMode == isDarkMode.value
    ensures isDarkMode.None? ==> r.isDarkMode == s.isDarkMode
    ensures r.(isAlarmOn := s.isAlarmOn, isDarkMode := s.isDarkMode) == s
  {
    var s1 := if isAlarmOn.Some? then s.(isAlarmOn := isAlarmOn.value) else s;
    if isDarkMode.Some? then s1.(isDarkMode := isDarkMode.value) else s1
  }

  /** Repeating a profile update changes nothing more, and an update with
      only nulls changes nothing at all. */
  lemma WithProfileIdempotent(s: UserState, nickname: Option<string>, profileMessage: Option<string>,
                              profileImageUrl: Option<string>)
    ensures var once := WithProfile(s, nickname, profileMessage, profileImageUrl);
      WithProfile(once, nickname, profileMessage, profileImageUrl) == once
    ensures WithProfile(s, None, None, None) == s
  {
  }

  /** Profile and settings updates touch disjoint fields, so they commute. */
  lemma ProfileAndSettingsCommute(s: UserState, nickname: Option<string>, profileMessage: Option<string>,
                                  profileImageUrl: Option<string>, isAlarmOn: Option<bool>, isDarkMode: Option<bool>)
    ensures WithSettings(WithProfile(s, nickname, profileMessage, profileImageUrl), isAlarmOn, isDarkMode)
         == WithProfile(WithSettings(s, isAlarmOn, isDarkMode), nickname, profileMessage, profileImageUrl)
  {
  }

  class User {
    var userId: Option<int>
    var kakaoId: Option<string>
    var email: Option<string>
    var nickname: string
    var profileMessage: Option<string>
    var profileImageUrl: Option<string>
    var refreshToken: Option<string>
    var isAlarmOn: bool
    var isDarkMode: bool
    var role: UserRole

    function State(): UserState
      reads this
    {
      UserState(userId, kakaoId, email, nickname, profileMessage, profileImageUrl, refreshToken,
                isAlarmOn, isDarkMode, role)
    }

    /** The builder's build(). */
    constructor (s: UserState)
      ensures State() == s
    {
      userId, kakaoId, email, nickname := s.userId, s.kakaoId, s.email, s.nickname;
      profileMessage, profileImageUrl, refreshToken := s.profileMessage, s.profileImageUrl, s.refreshToken;
      isAlarmOn, isDarkMode, role := s.isAlarmOn, s.isDarkMode, s.role;
    }

    /** createKakaoUser: role USER, alarm on, dark mode off. */
    static method CreateKakaoUser(kakaoId: string, email: string, nickname: string,
                                  profileImageUrl: Option<string>) returns (u: User)
      ensures fresh(u)
      ensures u.State() == Built(Some(kakaoId), Some(email), nickname, None, profileImageUrl)
      ensures u.role == RoleUser && u.isAlarmOn && !u.isDarkMode
    {
      u := new User(Built(Some(kakaoId), Some(email), nickname, None, profileImageUrl));
    }

    method UpdateProfile(nickname: Option<string>, profileMessage: Option<string>, profileImageUrl: Option<string>)
      modifies this
      ensures State() == WithProfile(old(State()), nickname, profileMessage, profileImageUrl)
    {
      if nickname.Some? {
        this.nickname := nickname.value;
      }
      if profileMessage.Some? {
        this.profileMessage := profileMessage;
      }
      if profileImageUrl.Some? {
        this.profileImageUrl := profileImageUrl;
      }
    }

    method UpdateSettings(isAlarmOn: Option<bool>, isDarkMode: Option<bool>)
      modifies this
      ensures State() == WithSettings(old(State()), isAlarmOn, isDarkMode)
    {
      if isAlarmOn.Some? {
        this.isAlarmOn := isAlarmOn.value;
      }
      if isDarkMode.Some? {
        this.isDarkMode := isDarkMode.value;
      }
    }

    /** updateRefreshToken: only the token changes. */
    method UpdateRefreshToken(token: Option<string>)
      modifies this
      ensures State() == old(State()).(refreshToken := token)
    {
      refreshToken := token;
    }
  }

  /** The AuthAccount linked to a user. */
  class AuthAccount {
    var userId: int
    var kakaoId: string
    var refreshToken: Option<string>
    var isActive: bool

    constructor (userId: int, kakaoId: string)
      ensures this.userId == userId && this.kakaoId == kakaoId
      ensures refreshToken.None? && isActive
    {
      this.userId := userId;
      this.kakaoId := kakaoId;
      refreshToken := None;
      isActive := true;
    }

    method Deactivate()
      modifies this
      ensures !isActive
      ensures userId == old(userId) && kakaoId == old(kakaoId) && refreshToken == old(refreshToken)
    {
      isActive := false;
    }

    method ClearRefreshToken()
      modifies this
      ensures refreshToken.None?
      ensures userId == old(userId) && kakaoId == old(kakaoId) && isActive == old(isActive)
    {
      refreshToken := None;
    }
  }

  /** The nickname tried after `k` failed tries: the original followed by
      the decimal counter. */
  function Candidate(original: string, k: nat): string {
    original + NatStr(k)
  }

  /** Distinct counters give distinct candidates, all different from the
      original. */
  lemma CandidatesDistinct(original: string, a: nat, b: nat)
    ensures Candidate(original, a) != original
    ensures a != b ==> Candidate(original, a) != Candidate(original, b)
  {
    assert |Candidate(original, a)| > |original|;
    if Candidate(original, a) == Candidate(original, b) {
      assert NatStr(a) == Candidate(original, a)[|original|..];
      assert NatStr(b) == Candidate(original, b)[|original|..];
      NatStrInjective(a, b);
    }
  }

  /** The j-th nickname tried: the original first, then the candidates. */
  function Attempt(original: string, j: nat): string {
    if j == 0 then original else Candidate(original, j)
  }

  /** generateUniqueNickname over the set of taken nicknames: the original
      when it is free, otherwise the original followed by the smallest
      counter k >= 1 whose candidate is free. */
  method GenerateUniqueNickname(original: string, taken: set<string>) returns (nickname: string)
    ensures nickname !in taken
    ensures original !in taken ==> nickname == original
    ensures original in taken ==>
      exists k: nat :: k >= 1 && nickname == Candidate(original, k)
        && forall j: nat :: 1 <= j < k ==> Candidate(original, j) in taken
  {
    nickname := original;
    var counter: nat := 1;
    ghost var seen: set<string> := {};
    while nickname in taken
      invariant counter >= 1
      invariant nickname == Attempt(original, counter - 1)
      invariant forall j: nat :: j < counter - 1 ==> Attempt(original, j) in taken
      invariant seen <= taken
      invariant nickname !in seen
      invariant forall x :: x in seen ==> exists j: nat :: j < counter - 1 && x == Attempt(original, j)
      decreases |taken - seen|
    {
      assert taken - (seen + {nickname}) == (taken - seen) - {nickname};
      seen := seen + {nickname};
      AttemptsDistinct(original, counter);
      nickname := Candidate(original, counter);
      counter := counter + 1;
    }
    if original in taken {
      var k: nat := counter - 1;
      assert k >= 1 && nickname == Candidate(original, k);
      assert forall j: nat :: 1 <= j < k ==> Candidate(original, j) == Attempt(original, j);
    }
  }

  /** The next candidate differs from every earlier attempt. */
  lemma AttemptsDistinct(original: string, k: nat)
    requires k >= 1
    ensures forall j: nat :: j < k ==> Attempt(original, j) != Candidate(original, k)
  {
    forall j: nat | j < k
      ensures Attempt(original, j) != Candidate(original, k)
    {
      CandidatesDistinct(original, k, j);
    }
  }

  const GreetingHead := "안녕하세요! "
  const GreetingTail := "입니다."

  /** The profile message a Kakao sign-up starts with: the greeting, the
      nickname, and the closing words. */
  function Greeting(nickname: string): (m: string)
    ensures |m| == |GreetingHead| + |nickname| + |GreetingTail|
    ensures StartsWith(m, GreetingHead)
    ensures m[|GreetingHead|..|GreetingHead| + |nickname|] == nickname
    ensures m[|GreetingHead| + |nickname|..] == GreetingTail
  {
    var m := GreetingHead + nickname + GreetingTail;
    assert m[..|GreetingHead|] == GreetingHead;
    m
  }

  /** Different nicknames get different greetings. */
  lemma GreetingInjective(a: string, b: string)
    requires Greeting(a) == Greeting(b)
    ensures a == b
  {
    assert |a| == |b|;
    assert a == Greeting(a)[|GreetingHead|..|GreetingHead| + |a|];
  }

  datatype UserError =
    | UserNotFound(userId: int)   // UserNotFoundException(userId)
    | AccountNotFound             // UserNotFoundException("인증 계정을 찾을 수 없습니다")
    | DuplicateNickname(nickname: string)

  class UserService {
    var users: map<int, User>
    var accounts: map<int, AuthAccount>
    /** TokenService's stored refresh tokens by user id. */
    var storedTokens: map<int, string>
    /** The id the next saved user receives. */
    var nextUserId: int

    /** Ids match their keys and lie below the next id, and no two users
        share a nickname (the column is unique). */
    ghost predicate Valid()
      reads this, users.Values, accounts.Values
    {
      && (forall id :: id in users ==> users[id].userId == Some(id) && id < nextUserId)
      && (forall id :: id in accounts ==> accounts[id].userId == id && id < nextUserId)
      && (forall a, b :: a in users && b in users && a != b ==> users[a].nickname != users[b].nickname)
    }

    constructor ()
      ensures Valid() && users == map[] && accounts == map[] && storedTokens == map[]
    {
      users, accounts, storedTokens, nextUserId := map[], map[], map[], 0;
    }

    /** existsByNickname over every stored user. */
    function Nicknames(): (names: set<string>)
      reads this, users.Values
      ensures forall id :: id in users ==> users[id].nickname in names
      ensures forall n :: n in names ==> exists id :: id in users && users[id].nickname == n
    {
      set id | id in users :: users[id].nickname
    }

    /** findById. */
    method FindById(userId: int) returns (r: Result<User, UserError>)
      ensures r.Ok? <==> userId in users
      ensures r.Ok? ==> r.value == users[userId]
      ensures r.Err? ==> r.error == UserNotFound(userId)
    {
      if userId in users {
        r := Ok(users[userId]);
      } else {
        r := Err(UserNotFound(userId));
      }
    }

    /** The duplicate check of updateProfile: the nickname changes and the
        new one belongs to some stored user. A null nickname is never
        equal to the current one and never exists. */
    function RejectsNickname(current: string, nickname: Option<string>, taken: set<string>): (rejected: bool)
      ensures rejected ==> nickname.Some? && nickname.value in taken
      ensures nickname == Some(current) ==> !rejected
      ensures nickname.Some? && nickname.value !in taken ==> !rejected
    {
      nickname.Some? && nickname.value != current && nickname.value in taken
    }

    /** updateProfile: unknown user, duplicate nickname, or the
        null-preserving update of the stored user. */
    method UpdateProfile(userId: int, nickname: Option<string>, profileMessage: Option<string>,
                         profileImageUrl: Option<string>) returns (r: Result<UserState, UserError>)
      requires Valid()
      modifies if userId in users then {users[userId]} else {}
      ensures Valid()
      ensures userId !in users ==> r == Err(UserNotFound(userId))
      ensures userId in users ==>
        var before := old(users[userId].State());
        && (RejectsNickname(before.nickname, nickname, old(Nicknames())) ==>
              r == Err(DuplicateNickname(nickname.value)) && users[userId].State() == before)
        && (!RejectsNickname(before.nickname, nickname, old(Nicknames())) ==>
              users[userId].State() == WithProfile(before, nickname, profileMessage, profileImageUrl)
              && r == Ok(users[userId].State()))
    {
      var found := FindById(userId);
      if found.Err? {
        return Err(found.error);
      }
      var user := found.value;
      if RejectsNickname(user.nickname, nickname, Nicknames()) {
        return Err(DuplicateNickname(nickname.value));
      }
      user.UpdateProfile(nickname, profileMessage, profileImageUrl);
      r := Ok(user.State());
    }

    /** Keeping one's own nickname always passes the duplicate check. */
    lemma SameNicknameAccepted(current: string, taken: set<string>)
      ensures !RejectsNickname(current, Some(current), taken)
      ensures !RejectsNickname(current, None, taken)
    {
    }

    /** updateSettings. */
    method UpdateSettings(userId: int, isAlarmOn: Option<bool>, isDarkMode: Option<bool>)
      returns (r: Result<UserState, UserError>)
      requires Valid()
      modifies if userId in users then {users[userId]} else {}
      ensures Valid()
      ensures userId !in users ==> r == Err(UserNotFound(userId))
      ensures userId in users ==>
        users[userId].State() == WithSettings(old(users[userId].State()), isAlarmOn, isDarkMode)
        && r == Ok(users[userId].State())
    {
      var found := FindById(userId);
      if found.Err? {
        return Err(found.error);
      }
      found.value.UpdateSettings(isAlarmOn, isDarkMode);
      r := Ok(found.value.State());
    }

    /** createUserWithKakao: a user with a nickname nobody holds, greeted in
        its profile message, saved under the next id, with an active
        AuthAccount for the Kakao id. */
    method CreateUserWithKakao(kakaoNickname: string, kakaoId: string) returns (u: User)
      requires Valid()
      modifies this
      ensures Valid()
      ensures fresh(u)
      ensures u.nickname !in old(Nicknames())
      ensures kakaoNickname !in old(Nicknames()) ==> u.nickname == kakaoNickname
      ensures u.State() == Built(None, None, u.nickname, Some(Greeting(u.nickname)), None).(userId := Some(old(nextUserId)))
      ensures users == old(users)[old(nextUserId) := u] && nextUserId == old(nextUserId) + 1
      ensures old(nextUserId) in accounts && fresh(accounts[old(nextUserId)])
      ensures accounts == old(accounts)[old(nextUserId) := accounts[old(nextUserId)]]
      ensures accounts[old(nextUserId)].kakaoId == kakaoId && accounts[old(nextUserId)].isActive
      ensures accounts[old(nextUserId)].refreshToken.None?
      ensures storedTokens == old(storedTokens)
    {
      var nick := GenerateUniqueNickname(kakaoNickname, Nicknames());
      u := new User(Built(None, None, nick, Some(Greeting(nick)), None));
      var id := SaveNewUser(u);
      SaveNewAccount(id, kakaoId);
    }

    /** authAccountRepository.save of the account a sign-up creates. */
    method SaveNewAccount(id: int, kakaoId: string)
      requires Valid() && id < nextUserId
      modifies this
      ensures Valid()
      ensures users == old(users) && nextUserId == old(nextUserId) && storedTokens == old(storedTokens)
      ensures id in accounts && fresh(accounts[id]) && accounts == old(accounts)[id := accounts[id]]
      ensures accounts[id].userId == id && accounts[id].kakaoId == kakaoId
      ensures accounts[id].isActive && accounts[id].refreshToken.None?
    {
      var account := new AuthAccount(id, kakaoId);
      accounts := accounts[id := account];
    }

    /** userRepository.save of a new user: it receives the next id. */
    method SaveNewUser(u: User) returns (id: int)
      requires Valid()
      requires u !in users.Values && u.nickname !in Nicknames()
      modifies this, u
      ensures Valid()
      ensures id == old(nextUserId) && nextUserId == id + 1
      ensures users == old(users)[id := u] && accounts == old(accounts) && storedTokens == old(storedTokens)
      ensures u.State() == old(u.State()).(userId := Some(id))
    {
      id := nextUserId;
      assert forall k :: k in users ==> users[k].nickname != u.nickname;
      u.userId := Some(id);
      users := users[id := u];
      nextUserId := id + 1;
    }

    /** clearRefreshToken: the account keeps its active flag; the stored
        token is deleted. */
    method ClearRefreshToken(userId: int) returns (err: Option<UserError>)
      requires Valid()
      modifies this, if userId in accounts then {accounts[userId]} else {}
      ensures Valid()
      ensures users == old(users) && accounts == old(accounts) && nextUserId == old(nextUserId)
      ensures err.Some? <==> userId !in accounts
      ensures err.Some? ==> err.value == AccountNotFound && storedTokens == old(storedTokens)
      ensures err.None? ==>
        && accounts[userId].refreshToken.None?
        && accounts[userId].isActive == old(accounts[userId].isActive)
        && storedTokens == old(storedTokens) - {userId}
    {
      if userId !in accounts {
        return Some(AccountNotFound);
      }
      accounts[userId].ClearRefreshToken();
      storedTokens := storedTokens - {userId};
      err := None;
    }

    /** deactivateUser: the account turns inactive with no token; the
        stored token is deleted. */
    method DeactivateUser(userId: int) returns (err: Option<UserError>)
      requires Valid()
      modifies this, if userId in accounts then {accounts[userId]} else {}
      ensures Valid()
      ensures users == old(users) && accounts == old(accounts) && nextUserId == old(nextUserId)
      ensures err.Some? <==> userId !in accounts
      ensures err.Some? ==> err.value == AccountNotFound && storedTokens == old(storedTokens)
      ensures err.None? ==>
        && !accounts[userId].isActive
        && accounts[userId].refreshToken.None?
        && storedTokens == old(storedTokens) - {userId}
    {
      if userId !in accounts {
        return Some(AccountNotFound);
      }
      var account := accounts[userId];
      account.Deactivate();
      account.ClearRefreshToken();
      storedTokens := storedTokens - {userId};
      err := None;
    }
  }
}
