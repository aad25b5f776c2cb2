/** The notification center: the unread count, marking one or all
    notifications read, the style per notification type, and when the list is
    fetched. The backend is outside the model: its mark-as-read calls are
    recorded in order, and what a fetch returns is an input. */
module Notifications {
  import opened Models
  import Lists

  predicate IsUnread(n: Notification)
  {
    !n.read
  }

  function IdOf(n: Notification): Option<string>
  {
    n.id
  }

  /** `unreadCount`. */
  function UnreadCount(ns: seq<Notification>): nat
  {
    |Lists.Filter(ns, IsUnread)|
  }

  /** The count is at most the list's length, and zero exactly when every
      notification is read. */
  lemma UnreadCountMeaning(ns: seq<Notification>)
    ensures UnreadCount(ns) <= |ns|
    ensures UnreadCount(ns) == 0 <==> forall i :: 0 <= i < |ns| ==> ns[i].read
  {
    var unread := Lists.Filter(ns, IsUnread);
    if unread != [] {
      assert unread[0] in unread;
      var i :| 0 <= i < |ns| && ns[i] == unread[0];
      assert !ns[i].read;
    }
    forall i | 0 <= i < |ns| && !ns[i].read ensures unread != [] {
      assert ns[i] in ns;
      assert ns[i] in unread;
    }
  }

  /** The notification with the handler's id marked read; `id` may be absent,
      as the notification's own may be, and `===` then matches absent ids. */
  function MarkOne(n: Notification, id: Option<string>): Notification
  {
    if n.id == id then n.(read := true) else n
  }

  /** The list after `handleMarkAsRead(id)`. */
  function MarkRead(ns: seq<Notification>, id: Option<string>): seq<Notification>
  {
    Lists.Map(ns, (n: Notification) => MarkOne(n, id))
  }

  /** The list after `handleMarkAllAsRead`. */
  function AllRead(ns: seq<Notification>): seq<Notification>
  {
    Lists.Map(ns, (n: Notification) => n.(read := true))
  }

  /** The ids `handleMarkAllAsRead` sends to the backend: one per unread
      notification, in list order. */
  function UnreadIds(ns: seq<Notification>): seq<Option<string>>
  {
    Lists.Map(Lists.Filter(ns, IsUnread), IdOf)
  }

  /** Marking one notification changes only the `read` flag, and sets it
      exactly on the notifications with the id; length and order stay. */
  lemma MarkReadOnlyTarget(ns: seq<Notification>, id: Option<string>)
    ensures var r := MarkRead(ns, id);
      && |r| == |ns|
      && (forall i :: 0 <= i < |ns| ==> r[i].read == (ns[i].read || ns[i].id == id))
      && (forall i :: 0 <= i < |ns| ==> r[i].(read := ns[i].read) == ns[i])
  {
  }

  /** Marking one notification never raises the unread count. */
  lemma MarkReadNeverIncreasesUnread(ns: seq<Notification>, id: Option<string>)
    ensures UnreadCount(MarkRead(ns, id)) <= UnreadCount(ns)
  {
    Lists.FilterPointwiseShrinks(ns, MarkRead(ns, id), IsUnread);
  }

  /** After marking all, every notification is read and the count is zero;
      marking all again changes nothing. */
  lemma AllReadClearsUnread(ns: seq<Notification>)
    ensures var r := AllRead(ns);
      && |r| == |ns|
      && (forall i :: 0 <= i < |ns| ==> r[i].read && r[i].(read := ns[i].read) == ns[i])
      && UnreadCount(r) == 0
      && AllRead(r) == r
  {
    UnreadCountMeaning(AllRead(ns));
  }

  /** The mark-all calls cover exactly the unread notifications: as many calls
      as the unread count, none when all are read. */
  lemma UnreadIdsMatchCount(ns: seq<Notification>)
    ensures |UnreadIds(ns)| == UnreadCount(ns)
    ensures (forall i :: 0 <= i < |ns| ==> ns[i].read) ==> UnreadIds(ns) == []
  {
    UnreadCountMeaning(ns);
  }

  /** `getNotificationTypeStyles`. */
  function TypeStyles(kind: string): string
  {
    match kind
    case "success" => "bg-green-100 border-green-500 text-green-800"
    case "warning" => "bg-yellow-100 border-yellow-500 text-yellow-800"
    case "error" => "bg-red-100 border-red-500 text-red-800"
    case _ => "bg-blue-100 border-blue-500 text-blue-800"
  }

  predicate DeclaredKind(kind: string)
  {
    kind == "info" || kind == "warning" || kind == "success" || kind == "error"
  }

  /** The four declared types get four different styles, and every other type
      is styled as "info". */
  lemma TypeStylesSeparateKinds(k: string, l: string)
    ensures DeclaredKind(k) && DeclaredKind(l) && k != l ==> TypeStyles(k) != TypeStyles(l)
    ensures k != "success" && k != "warning" && k != "error" ==> TypeStyles(k) == TypeStyles("info")
  {
  }

  /** The effect's guard: a user id that is present and non-empty, and an open
      popover. */
  predicate ShouldFetch(uid: Option<string>, isOpen: bool)
  {
    Truthy(uid) && isOpen
  }

  /** The component's state. `markCalls` records, in order, the ids passed to
      the backend's mark-as-read. */
  class NotificationCenter {
    var notifications: seq<Notification>
    var isOpen: bool
    var markCalls: seq<Option<string>>

    constructor ()
      ensures notifications == [] && !isOpen && markCalls == []
    {
      notifications := [];
      isOpen := false;
      markCalls := [];
    }

    /** One backend call `markNotificationAsRead(id)`. It reports failure by
        its result, which the handlers ignore. */
    method RequestMarkAsRead(id: Option<string>)
      modifies this`markCalls
      ensures markCalls == old(markCalls) + [id]
    {
      markCalls := markCalls + [id];
    }

    /** `handleMarkAsRead(id)`: one backend call, then the list update. */
    method HandleMarkAsRead(id: Option<string>)
      modifies this`markCalls, this`notifications
      ensures markCalls == old(markCalls) + [id]
      ensures notifications == MarkRead(old(notifications), id)
    {
      RequestMarkAsRead(id);
      notifications := MarkRead(notifications, id);
    }

    /** `handleMarkAllAsRead`: one backend call per unread notification, in
        list order, then every notification marked read. */
    method HandleMarkAllAsRead()
      modifies this`markCalls, this`notifications
      ensures markCalls == old(markCalls) + UnreadIds(old(notifications))
      ensures notifications == AllRead(old(notifications))
    {
      var unread := Lists.Filter(notifications, IsUnread);
      var i := 0;
      while i < |unread|
        invariant 0 <= i <= |unread|
        invariant markCalls == old(markCalls) + Lists.Map(unread[..i], IdOf)
        invariant notifications == old(notifications)
      {
        var done := unread[..i];
        Lists.MapSnoc(done, unread[i], IdOf);
        assert unread[..i + 1] == done + [unread[i]];
        assert IdOf(unread[i]) == unread[i].id;
        RequestMarkAsRead(unread[i].id);
        i := i + 1;
      }
      assert unread[..|unread|] == unread;
      notifications := AllRead(notifications);
    }

    /** `fetchNotifications` for the current user's id; `fetched` is what the
        backend returned (an empty list when the query failed). */
    method FetchNotifications(uid: Option<string>, fetched: seq<Notification>)
      modifies this`notifications
      ensures notifications == if Truthy(uid) then fetched else old(notifications)
    {
      if !Truthy(uid) {
        return;
      }
      notifications := fetched;
    }

    /** The effect that runs when the user id or `isOpen` changes. */
    method OnDependenciesChanged(uid: Option<string>, fetched: seq<Notification>)
      modifies this`notifications
      ensures notifications == if ShouldFetch(uid, isOpen) then fetched else old(notifications)
    {
      if ShouldFetch(uid, isOpen) {
        FetchNotifications(uid, fetched);
      }
    }

    /** The popover's `onOpenChange`, followed by the effect, which runs only
        when `isOpen` actually changed (the user id is the same). */
    method SetOpen(open: bool, uid: Option<string>, fetched: seq<Notification>)
      modifies this`isOpen, this`notifications
      ensures isOpen == open
      ensures notifications ==
        if open != old(isOpen) && ShouldFetch(uid, open) then fetched else old(notifications)
    {
      var changed := open != isOpen;
      isOpen := open;
      if changed {
        OnDependenciesChanged(uid, fetched);
      }
    }
  }
}
