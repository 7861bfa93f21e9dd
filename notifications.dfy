/** The notification bell (`components/notifications.tsx`): the unread count on the badge and the two
    ways of marking entries read. */
module Notifications {
  import opened Util

  datatype Notification = Notification(id: string, title: string, description: string, time: string, read: bool)

  /** The five sample notifications, two of them unread. */
  const InitialNotifications: seq<Notification> := [
    Notification("1", "프로젝트 마감일 임박", "웹사이트 리뉴얼 프로젝트의 마감일이 3일 남았습니다.", "10분 전", false),
    Notification("2", "3D 프린터 소재 부족", "프린터 A의 소재가 20% 남았습니다. 소재를 보충해주세요.", "30분 전", false),
    Notification("3", "새 프로젝트 등록", "모바일 앱 개발 프로젝트가 새로 등록되었습니다.", "1시간 전", true),
    Notification("4", "승인 요청", "김철수님이 제출한 문서가 승인 대기 중입니다.", "2시간 전", true),
    Notification("5", "프린터 작업 완료", "프린터 B의 작업이 완료되었습니다.", "3시간 전", true)
  ]

  predicate IsUnread(n: Notification) { !n.read }

  /** `unreadCount`. */
  function UnreadCount(notifs: seq<Notification>): nat
  {
    Count(notifs, IsUnread)
  }

  function ReadIf(id: string): Notification -> Notification
  {
    (n: Notification) => if n.id == id then n.(read := true) else n
  }

  /** `markAsRead(id)`. */
  function MarkAsRead(notifs: seq<Notification>, id: string): seq<Notification>
  {
    Map(notifs, ReadIf(id))
  }

  function MarkRead(n: Notification): Notification
  {
    n.(read := true)
  }

  /** `markAllAsRead()`. */
  function MarkAllAsRead(notifs: seq<Notification>): seq<Notification>
  {
    Map(notifs, MarkRead)
  }

  /** Marking one id sets `read` on exactly the entries with that id and changes nothing else: the
      length, the order and every other field stay as they were. */
  lemma MarkAsReadOnlyThatId(notifs: seq<Notification>, id: string, i: nat)
    requires i < |notifs|
    ensures |MarkAsRead(notifs, id)| == |notifs|
    ensures var m := MarkAsRead(notifs, id)[i];
      (notifs[i].id == id ==> m.read && m == notifs[i].(read := true)) &&
      (notifs[i].id != id ==> m == notifs[i])
  {
  }

  /** Marking the same id twice is marking it once. */
  lemma MarkAsReadIdempotent(notifs: seq<Notification>, id: string)
    ensures MarkAsRead(MarkAsRead(notifs, id), id) == MarkAsRead(notifs, id)
  {
  }

  predicate UnreadWithId(id: string, n: Notification) { !n.read && n.id == id }

  function UnreadWith(id: string): Notification -> bool
  {
    (n: Notification) => UnreadWithId(id, n)
  }

  /** Marking one id lowers the unread count by exactly the number of unread entries with that id, so
      it never raises it. */
  lemma {:induction false} MarkAsReadCount(notifs: seq<Notification>, id: string)
    ensures UnreadCount(MarkAsRead(notifs, id)) + Count(notifs, UnreadWith(id)) == UnreadCount(notifs)
    ensures UnreadCount(MarkAsRead(notifs, id)) <= UnreadCount(notifs)
  {
    if notifs != [] {
      MarkAsReadCount(notifs[1..], id);
      assert MarkAsRead(notifs, id)[1..] == MarkAsRead(notifs[1..], id);
    }
  }

  /** After "mark all" every entry is read and nothing is counted. */
  lemma MarkAllClears(notifs: seq<Notification>)
    ensures |MarkAllAsRead(notifs)| == |notifs|
    ensures forall i :: 0 <= i < |notifs| ==> MarkAllAsRead(notifs)[i].read
    ensures UnreadCount(MarkAllAsRead(notifs)) == 0
  {
  }

  /** The badge and the "모두 읽음 표시" button are shown exactly when some entry is unread. */
  predicate BadgeShown(notifs: seq<Notification>)
  {
    UnreadCount(notifs) > 0
  }

  lemma BadgeIffUnread(notifs: seq<Notification>)
    ensures BadgeShown(notifs) <==> exists i :: 0 <= i < |notifs| && !notifs[i].read
    ensures UnreadCount(InitialNotifications) == 2
  {
    var n := InitialNotifications;
    assert n[1..][1..][1..][1..][1..] == [];
  }

  class Bell {
    var open: bool
    var notifs: seq<Notification>

    constructor ()
      ensures !open && notifs == InitialNotifications
    {
      open := false;
      notifs := InitialNotifications;
    }

    method HandleMarkAsRead(id: string)
      modifies this`notifs
      ensures notifs == MarkAsRead(old(notifs), id)
    {
      notifs := MarkAsRead(notifs, id);
    }

    method HandleMarkAllAsRead()
      modifies this`notifs
      ensures notifs == MarkAllAsRead(old(notifs))
    {
      notifs := MarkAllAsRead(notifs);
    }
  }
}
