/** NotificationServiceImpl: the lookups behind a new notification, the
    text each notification type carries, and the receiver check when a
    notification is marked read. Today's date is a parameter. */
module Notifications {
  import opened Wrappers
  import Calendar

  /** The types the service writes a text for, and every other type. */
  datatype NotificationType =
    | GroupJoinRequest
    | GroupMemberRoleUpdated
    | GroupMemberStatusUpdated
    | GroupTodayAuthCompleted
    | GroupTodayAuthRejected
    | GroupTodayAuthRequest
    | MonthlyReview
    | OtherType(name: string)

  /** A group membership as the texts print it: the enum names of its role
      and status. */
  datatype MemberInfo = MemberInfo(role: string, status: string)

  datatype NotificationError =
    | UserNotFound         // "User not found" (also a null id)
    | GroupNotFound        // "Group not found"
    | GroupMemberNotFound  // "GroupMember not found"
    | NotificationNotFound // "Notification not found"
    | NotReceiver          // "user id not equals to receiver id"

  /** The text of a notification: fixed templates filled with the
      nicknames, the group name, the membership and the month. The role
      change quotes the member's status and the status change quotes the
      role, as the service writes them. */
  function Content(t: NotificationType, sender: string, receiver: string, groupName: string,
                   member: MemberInfo, monthYear: string): (c: string)
    ensures t.OtherType? ==> c == ""
  {
    match t
    case GroupJoinRequest => sender + "님이 " + groupName + "에 그룹 가입 요청을 보냈습니다."
    case GroupMemberRoleUpdated => receiver + "님의 " + groupName + "의 멤버 역할이 " + member.status + "으로 변경되었습니다."
    case GroupMemberStatusUpdated => receiver + "님의 " + groupName + "의 멤버 상태가 " + member.role + "으로 변경되었습니다."
    case GroupTodayAuthCompleted => sender + "님이 " + receiver + "님의 " + groupName + "의 그룹 인증을 수락했습니다."
    case GroupTodayAuthRejected => sender + "님이 " + receiver + "님의 " + groupName + "의 그룹 인증을 반려했습니다."
    case GroupTodayAuthRequest => sender + "님이 " + groupName + "의 그룹 인증을 요청했습니다."
    case MonthlyReview => receiver + "님의 " + monthYear + " 월간 루틴 성과 리포트가 준비되었습니다! 확인해보세요."
    case OtherType(_) => ""
  }

  /** Which inputs each text depends on: the role-change text never reads
      the role, the status-change text never reads the status, and only the
      monthly review reads the month. */
  lemma ContentDependencies(t: NotificationType, sender: string, receiver: string, groupName: string,
                            m1: MemberInfo, m2: MemberInfo, month1: string, month2: string)
    ensures t == GroupMemberRoleUpdated && m1.status == m2.status ==>
      Content(t, sender, receiver, groupName, m1, month1) == Content(t, sender, receiver, groupName, m2, month2)
    ensures t == GroupMemberStatusUpdated && m1.role == m2.role ==>
      Content(t, sender, receiver, groupName, m1, month1) == Content(t, sender, receiver, groupName, m2, month2)
    ensures t != MonthlyReview && t != GroupMemberRoleUpdated && t != GroupMemberStatusUpdated ==>
      Content(t, sender, receiver, groupName, m1, month1) == Content(t, sender, receiver, groupName, m2, month2)
  {
  }

  /** Equal texts around two middles mean equal middles. */
  lemma MiddleCancels(p: string, a: string, b: string, q: string)
    requires p + a + q == p + b + q
    ensures a == b
  {
    assert |a| == |b|;
    assert a == (p + a + q)[|p|..|p| + |a|];
    assert b == (p + b + q)[|p|..|p| + |b|];
  }

  /** The role-change text does tell statuses apart, and the status-change
      text tells roles apart. */
  lemma ContentQuotesSwappedField(sender: string, receiver: string, groupName: string,
                                  m1: MemberInfo, m2: MemberInfo, monthYear: string)
    ensures m1.status != m2.status ==>
      Content(GroupMemberRoleUpdated, sender, receiver, groupName, m1, monthYear)
      != Content(GroupMemberRoleUpdated, sender, receiver, groupName, m2, monthYear)
    ensures m1.role != m2.role ==>
      Content(GroupMemberStatusUpdated, sender, receiver, groupName, m1, monthYear)
      != Content(GroupMemberStatusUpdated, sender, receiver, groupName, m2, monthYear)
  {
    var roleHead := receiver + "님의 " + groupName + "의 멤버 역할이 ";
    var statusHead := receiver + "님의 " + groupName + "의 멤버 상태가 ";
    var tail := "으로 변경되었습니다.";
    if Content(GroupMemberRoleUpdated, sender, receiver, groupName, m1, monthYear)
       == Content(GroupMemberRoleUpdated, sender, receiver, groupName, m2, monthYear) {
      MiddleCancels(roleHead, m1.status, m2.status, tail);
    }
    if Content(GroupMemberStatusUpdated, sender, receiver, groupName, m1, monthYear)
       == Content(GroupMemberStatusUpdated, sender, receiver, groupName, m2, monthYear) {
      MiddleCancels(statusHead, m1.role, m2.role, tail);
    }
  }

  /** The monthly review text names the receiver first. */
  lemma MonthlyReviewNamesReceiver(sender: string, receiver: string, groupName: string, member: MemberInfo,
                                   monthYear: string)
    ensures var c := Content(MonthlyReview, sender, receiver, groupName, member, monthYear);
      |c| >= |receiver| && c[..|receiver|] == receiver
  {
    var c := Content(MonthlyReview, sender, receiver, groupName, member, monthYear);
    assert c == receiver + ("님의 " + monthYear + " 월간 루틴 성과 리포트가 준비되었습니다! 확인해보세요.");
  }

  class Notification {
    var content: string
    var notificationType: NotificationType
    var senderId: int
    var receiverId: int
    var groupId: int
    var isRead: Option<bool>

    /** Notification.createNotification: a new, unread notification. */
    constructor (content: string, notificationType: NotificationType, senderId: int, receiverId: int, groupId: int)
      ensures this.content == content && this.notificationType == notificationType
      ensures this.senderId == senderId && this.receiverId == receiverId && this.groupId == groupId
      ensures isRead == Some(false)
    {
      this.content := content;
      this.notificationType := notificationType;
      this.senderId := senderId;
      this.receiverId := receiverId;
      this.groupId := groupId;
      isRead := Some(false);
    }

    method UpdateIsRead(isRead: Option<bool>)
      modifies this
      ensures this.isRead == isRead
      ensures content == old(content) && notificationType == old(notificationType)
      ensures senderId == old(senderId) && receiverId == old(receiverId) && groupId == old(groupId)
    {
      this.isRead := isRead;
    }
  }

  /** The lookups of createNotification, in their order: sender, receiver,
      group, and the receiver's membership of the group. */
  function LookupError(senderId: Option<int>, receiverId: Option<int>, groupId: Option<int>,
                       nicknames: map<int, string>, groups: map<int, string>,
                       members: map<(int, int), MemberInfo>): (e: Option<NotificationError>)
    ensures e.None? <==>
      senderId.Some? && senderId.value in nicknames && receiverId.Some? && receiverId.value in nicknames
      && groupId.Some? && groupId.value in groups && (groupId.value, receiverId.value) in members
    ensures (senderId.None? || senderId.value !in nicknames) ==> e == Some(UserNotFound)
    ensures e == Some(GroupNotFound) ==> receiverId.Some? && receiverId.value in nicknames
  {
    if senderId.None? || senderId.value !in nicknames then Some(UserNotFound)
    else if receiverId.None? || receiverId.value !in nicknames then Some(UserNotFound)
    else if groupId.None? || groupId.value !in groups then Some(GroupNotFound)
    else if (groupId.value, receiverId.value) !in members then Some(GroupMemberNotFound)
    else None
  }

  /** A notification sent with no sender and no group, as the monthly
      review dispatch sends it, always fails its first lookup. */
  lemma NullSenderAlwaysFails(receiverId: Option<int>, nicknames: map<int, string>, groups: map<int, string>,
                              members: map<(int, int), MemberInfo>)
    ensures LookupError(None, receiverId, None, nicknames, groups, members) == Some(UserNotFound)
  {
  }

  class NotificationService {
    /** Users by id, by nickname. */
    var nicknames: map<int, string>
    /** Groups by id, by name. */
    var groups: map<int, string>
    /** Memberships keyed by (groupId, userId). */
    var members: map<(int, int), MemberInfo>
    var notifications: map<int, Notification>
    var nextId: int

    constructor (nicknames: map<int, string>, groups: map<int, string>, members: map<(int, int), MemberInfo>)
      ensures this.nicknames == nicknames && this.groups == groups && this.members == members
      ensures notifications == map[] && nextId == 0
    {
      this.nicknames := nicknames;
      this.groups := groups;
      this.members := members;
      notifications := map[];
      nextId := 0;
    }

    /** createNotification: the first failed lookup is the error; otherwise
        a new unread notification with the type's text is saved under the
        next id. */
    method CreateNotification(t: NotificationType, senderId: Option<int>, receiverId: Option<int>,
                              groupId: Option<int>, today: Calendar.Date) returns (r: Result<int, NotificationError>)
      requires 1 <= today.month <= 12
      modifies this
      ensures nicknames == old(nicknames) && groups == old(groups) && members == old(members)
      ensures var e := LookupError(senderId, receiverId, groupId, nicknames, groups, members);
        (e.Some? ==> r == Err(e.value) && notifications == old(notifications) && nextId == old(nextId))
        && (e.None? ==> r == Ok(old(nextId)))
      ensures r.Ok? ==>
        && nextId == old(nextId) + 1
        && r.value in notifications
        && notifications == old(notifications)[r.value := notifications[r.value]]
        && fresh(notifications[r.value])
        && notifications[r.value].content
           == Content(t, nicknames[senderId.value], nicknames[receiverId.value], groups[groupId.value],
                      members[(groupId.value, receiverId.value)], Calendar.CurrentMonthString(today))
        && notifications[r.value].notificationType == t
        && notifications[r.value].senderId == senderId.value
        && notifications[r.value].receiverId == receiverId.value
        && notifications[r.value].groupId == groupId.value
        && notifications[r.value].isRead == Some(false)
    {
      var e := LookupError(senderId, receiverId, groupId, nicknames, groups, members);
      if e.Some? {
        return Err(e.value);
      }
      var content := Content(t, nicknames[senderId.value], nicknames[receiverId.value], groups[groupId.value],
                             members[(groupId.value, receiverId.value)], Calendar.CurrentMonthString(today));
      var n := new Notification(content, t, senderId.value, receiverId.value, groupId.value);
      var id := nextId;
      notifications := notifications[id := n];
      nextId := id + 1;
      r := Ok(id);
    }

    /** updateIsRead: the caller must exist, the notification must exist,
        and the caller must be its receiver. */
    method UpdateIsRead(notificationId: int, receiverId: int, isRead: Option<bool>)
      returns (err: Option<NotificationError>)
      modifies if notificationId in notifications then {notifications[notificationId]} else {}
      ensures receiverId !in nicknames ==> err == Some(UserNotFound)
      ensures receiverId in nicknames && notificationId !in notifications ==> err == Some(NotificationNotFound)
      ensures receiverId in nicknames && notificationId in notifications ==>
        (err.None? <==> old(notifications[notificationId].receiverId) == receiverId)
      ensures err.Some? ==> err.value in {UserNotFound, NotificationNotFound, NotReceiver}
      ensures notificationId in notifications ==>
        notifications[notificationId].receiverId == old(notifications[notificationId].receiverId)
        && notifications[notificationId].content == old(notifications[notificationId].content)
        && notifications[notificationId].senderId == old(notifications[notificationId].senderId)
        && notifications[notificationId].groupId == old(notifications[notificationId].groupId)
        && notifications[notificationId].notificationType == old(notifications[notificationId].notificationType)
        && notifications[notificationId].isRead
           == (if err.None? then isRead else old(notifications[notificationId].isRead))
    {
      if receiverId !in nicknames {
        return Some(UserNotFound);
      }
      if notificationId !in notifications {
        return Some(NotificationNotFound);
      }
      var n := notifications[notificationId];
      if n.receiverId != receiverId {
        return Some(NotReceiver);
      }
      n.UpdateIsRead(isRead);
      err := None;
    }
  }
}
