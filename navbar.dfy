/**
 * The navigation bar's notification menu: the unread count and its badge, each
 * entry's label and body text, and what clicking an entry does.
 */
module Navbar {
  import opened Wrappers
  import opened Text

  datatype Payload = Payload(taskId: Option<string>, taskTitle: Option<string>, message: Option<string>)

  datatype Notification = Notification(id: string, readAt: Option<string>, kind: string, payload: Payload)

  /** `!n.readAt`: no read time, or an empty one. */
  function IsUnread(n: Notification): (unread: bool)
    ensures unread <==> n.readAt.GetOr("") == ""
  {
    n.readAt.None? || n.readAt == Some("")
  }

  /** `notifications.filter(n => !n.readAt).length`. */
  function UnreadCount(ns: seq<Notification>): (count: nat)
    ensures count <= |ns|
    ensures count == 0 <==> forall k :: 0 <= k < |ns| ==> !IsUnread(ns[k])
    ensures count == |ns| <==> forall k :: 0 <= k < |ns| ==> IsUnread(ns[k])
  {
    if ns == [] then 0
    else
      var rest := UnreadCount(ns[1..]);
      assert forall k :: 1 <= k < |ns| ==> ns[k] == ns[1..][k - 1];
      (if IsUnread(ns[0]) then 1 else 0) + rest
  }

  /** The count over two lists is the sum of their counts. */
  lemma {:induction false} UnreadCountAppend(a: seq<Notification>, b: seq<Notification>)
    ensures UnreadCount(a + b) == UnreadCount(a) + UnreadCount(b)
  {
    if a == [] {
      assert a + b == b;
    } else {
      assert (a + b)[1..] == a[1..] + b;
      UnreadCountAppend(a[1..], b);
    }
  }

  /** The badge: shown only for unread notifications, `9+` beyond nine, the number otherwise. */
  function Badge(count: int): (badge: Option<string>)
    ensures badge.Some? <==> count > 0
    ensures count > 9 ==> badge == Some("9+")
    ensures 0 < count <= 9 ==> badge.Some? && |badge.value| == 1 && IsDigit(badge.value[0]) &&
                               badge.value[0] as int - '0' as int == count
  {
    if count <= 0 then None
    else if count > 9 then Some("9+")
    else Some(NatToString(count))
  }

  /** `\w`: a letter, a digit or `_`. */
  predicate IsWordChar(c: char) {
    IsLetter(c) || IsDigit(c) || c == '_'
  }

  /** `\b\w` matches at i: a word character with no word character before it. */
  predicate WordStart(s: string, i: nat)
    requires i < |s|
  {
    IsWordChar(s[i]) && (i == 0 || !IsWordChar(s[i - 1]))
  }

  /**
   * `replace(/\b\w/g, l => l.toUpperCase())`, scanning left to right and
   * remembering whether the previous character was a word character.
   */
  function CapitalizeAfter(s: string, afterWord: bool): (r: string)
    ensures |r| == |s|
    ensures forall i :: 0 <= i < |s| ==> r[i] == if StartsWord(s, i, afterWord) then ToUpper(s[i]) else s[i]
  {
    if s == [] then []
    else
      var c := if IsWordChar(s[0]) && !afterWord then ToUpper(s[0]) else s[0];
      var rest := CapitalizeAfter(s[1..], IsWordChar(s[0]));
      var r := [c] + rest;
      assert forall i :: 1 <= i < |s| ==> (r[i] == rest[i - 1] && s[1..][i - 1] == s[i] &&
        (StartsWord(s[1..], i - 1, IsWordChar(s[0])) <==> StartsWord(s, i, afterWord)));
      r
  }

  /** Character i starts a word, given whether the text before s ended inside a word. */
  predicate StartsWord(s: string, i: nat, afterWord: bool)
    requires i < |s|
  {
    IsWordChar(s[i]) && (if i == 0 then !afterWord else !IsWordChar(s[i - 1]))
  }

  /** Every word-initial character is upper-cased; nothing else changes. */
  function Capitalize(s: string): (r: string)
    ensures |r| == |s|
    ensures forall i :: 0 <= i < |s| ==> r[i] == if WordStart(s, i) then ToUpper(s[i]) else s[i]
  {
    CapitalizeAfter(s, false)
  }

  /** The entry's label: the first `_` becomes a space, then lower case, then word-initial capitals. */
  function TypeLabel(kind: string): (shown: string)
    ensures |shown| == |kind|
  {
    Capitalize(Lower(ReplaceFirst(kind, '_', ' ')))
  }

  /**
   * Only the first `_` becomes a space and starts a new word; every later `_`
   * stays and keeps the following letter in lower case (`TASK_STATUS_CHANGED`
   * is labelled `Task Status_changed`).
   */
  lemma TypeLabelUnderscores(kind: string, i: nat)
    requires i + 1 < |kind| && kind[i] == '_' && IsLetter(kind[i + 1])
    ensures i == FirstIndex(kind, '_') ==> TypeLabel(kind)[i] == ' ' && IsUpper(TypeLabel(kind)[i + 1])
    ensures i != FirstIndex(kind, '_') ==> TypeLabel(kind)[i] == '_' && IsLower(TypeLabel(kind)[i + 1])
  {
    var lowered := Lower(ReplaceFirst(kind, '_', ' '));
    assert lowered[i + 1] == ToLower(kind[i + 1]);
    assert IsLetter(lowered[i + 1]);
  }

  /** A label starts with a capital when the type starts with a letter. */
  lemma TypeLabelStartsCapitalized(kind: string)
    requires kind != [] && IsLetter(kind[0])
    ensures IsUpper(TypeLabel(kind)[0])
  {
    var lowered := Lower(ReplaceFirst(kind, '_', ' '));
    assert lowered[0] == ToLower(kind[0]);
  }

  /** Capitalising piecewise: the second piece only needs to know whether the first ended inside a word. */
  lemma CapitalizeAppend(a: string, b: string, afterWord: bool)
    requires a != []
    ensures CapitalizeAfter(a + b, afterWord) == CapitalizeAfter(a, afterWord) + CapitalizeAfter(b, IsWordChar(a[|a| - 1]))
  {
    var ab := a + b;
    forall i | |a| <= i < |ab|
      ensures StartsWord(ab, i, afterWord) <==> StartsWord(b, i - |a|, IsWordChar(a[|a| - 1]))
    {
      assert ab[i] == b[i - |a|] && ab[i - 1] == (if i == |a| then a[|a| - 1] else b[i - |a| - 1]);
    }
    forall i | 0 <= i < |a|
      ensures StartsWord(ab, i, afterWord) <==> StartsWord(a, i, afterWord)
    {
      assert ab[i] == a[i] && (i > 0 ==> ab[i - 1] == a[i - 1]);
    }
  }

  /** `payload.taskTitle || payload.message`. */
  function BodyText(p: Payload): (text: string)
    ensures p.taskTitle.Some? && p.taskTitle.value != "" ==> text == p.taskTitle.value
    ensures (p.taskTitle.None? || p.taskTitle == Some("")) ==> text == p.message.GetOr("")
  {
    if p.taskTitle.Some? && p.taskTitle.value != "" then p.taskTitle.value else p.message.GetOr("")
  }

  /** The bar's notification state and what it has sent or opened. */
  class NotificationMenu {
    var notifications: seq<Notification>
    var unreadCount: nat
    var isOpen: bool
    var location: string
    var markedRead: seq<string>

    predicate Valid()
      reads this
    {
      unreadCount == UnreadCount(notifications)
    }

    constructor (location: string)
      ensures Valid() && notifications == [] && !isOpen && this.location == location && markedRead == []
    {
      notifications := [];
      unreadCount := 0;
      isOpen := false;
      this.location := location;
      markedRead := [];
    }

    /** `fetchNotifications`: a reply replaces the list and recounts; a failure changes nothing. */
    method FetchNotifications(reply: Option<seq<Notification>>)
      modifies this`notifications, this`unreadCount
      ensures Valid()
      ensures reply.Some? ==> notifications == reply.value
      ensures reply.None? ==> notifications == old(notifications) && unreadCount == old(unreadCount)
      requires Valid()
    {
      if reply.Some? {
        notifications := reply.value;
        unreadCount := UnreadCount(reply.value);
      }
    }

    /**
     * `handleNotificationClick`: an unread entry is marked read (and, when
     * that succeeds, the list is fetched again), a read one is not; the menu
     * always closes; the page moves to the entry's task only when it names one.
     */
    method HandleNotificationClick(n: Notification, markSucceeds: bool, refetched: Option<seq<Notification>>)
      requires Valid()
      modifies this
      ensures Valid() && !isOpen
      ensures markedRead == if IsUnread(n) then old(markedRead) + [n.id] else old(markedRead)
      ensures notifications == if IsUnread(n) && markSucceeds && refetched.Some? then refetched.value else old(notifications)
      ensures location == if n.payload.taskId.Some? && n.payload.taskId.value != ""
                          then "/tasks/" + n.payload.taskId.value else old(location)
    {
      if IsUnread(n) {
        markedRead := markedRead + [n.id];
        if markSucceeds {
          FetchNotifications(refetched);
        }
      }
      isOpen := false;
      if n.payload.taskId.Some? && n.payload.taskId.value != "" {
        location := "/tasks/" + n.payload.taskId.value;
      }
    }
  }
}
