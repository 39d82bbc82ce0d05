/**
 * The inbox state of frontend/src/App.tsx: the fetched emails, the selected
 * email, the per-id pin/archive statuses and the toast, updated in place by
 * the toolbar handler and by a reload; and the two lists derived from them,
 * the inbox (archived emails left out, pinned ones first) and the archive.
 */
module Inbox {
  import opened Wrappers
  import opened Store

  // ---------------------------------------------------------------------------
  // Statuses

  /** `{ pinned?: boolean, archived?: boolean }` */
  datatype EmailStatus = EmailStatus(pinned: Option<bool>, archived: Option<bool>)

  datatype ToolbarAction = Pin | Archive

  /** JavaScript truthiness of an optional flag. */
  predicate IsSet(flag: Option<bool>) {
    flag == Some(true)
  }

  /** `prev[email.id] || {}` */
  function Current(statuses: map<int, EmailStatus>, id: int): EmailStatus {
    if id in statuses then statuses[id] else EmailStatus(None, None)
  }

  predicate Pinned(statuses: map<int, EmailStatus>, id: int) {
    IsSet(Current(statuses, id).pinned)
  }

  predicate Archived(statuses: map<int, EmailStatus>, id: int) {
    IsSet(Current(statuses, id).archived)
  }

  /** The status after the action: the action's flag negated, the other flag copied. */
  function Toggled(s: EmailStatus, action: ToolbarAction): (r: EmailStatus)
    ensures action == Pin ==> r.archived == s.archived && (IsSet(r.pinned) <==> !IsSet(s.pinned))
    ensures action == Archive ==> r.pinned == s.pinned && (IsSet(r.archived) <==> !IsSet(s.archived))
  {
    match action
    case Pin => s.(pinned := Some(!IsSet(s.pinned)))
    case Archive => s.(archived := Some(!IsSet(s.archived)))
  }

  /** `{ ...prev, [email.id]: updated }` */
  function StatusesAfter(statuses: map<int, EmailStatus>, id: int, action: ToolbarAction): map<int, EmailStatus> {
    statuses[id := Toggled(Current(statuses, id), action)]
  }

  /** The flag the action sets, in the new status. */
  predicate FlagNowSet(statuses: map<int, EmailStatus>, id: int, action: ToolbarAction) {
    match action
    case Pin => !Pinned(statuses, id)
    case Archive => !Archived(statuses, id)
  }

  /** The toast for the action, by whether its flag is now set. */
  function ToastText(action: ToolbarAction, nowSet: bool): string {
    match action
    case Pin => if nowSet then "Pinned this email." else "Unpinned this email."
    case Archive => if nowSet then "Archived email." else "Restored email from archive."
  }

  /** The selection after the action: archiving the selected email clears it. */
  function SelectionAfter(selected: Option<Email>, id: int, action: ToolbarAction, nowSet: bool): Option<Email> {
    if action == Archive && nowSet && selected.Some? && selected.value.id == id then None else selected
  }

  /** A toggle changes exactly its own flag of its own email. */
  lemma ToggleTouchesOneFlag(statuses: map<int, EmailStatus>, id: int, action: ToolbarAction, other: int)
    ensures var after := StatusesAfter(statuses, id, action);
            (other != id ==> Current(after, other) == Current(statuses, other))
            && (action == Pin ==> (Pinned(after, id) <==> !Pinned(statuses, id))
                                  && Current(after, id).archived == Current(statuses, id).archived)
            && (action == Archive ==> (Archived(after, id) <==> !Archived(statuses, id))
                                      && Current(after, id).pinned == Current(statuses, id).pinned)
            && (FlagNowSet(statuses, id, action) <==> (if action == Pin then Pinned(after, id) else Archived(after, id)))
  {
  }

  /** Two toggles of the same flag give back its truthiness; the other flag is as before. */
  lemma DoubleToggleRestores(statuses: map<int, EmailStatus>, id: int, action: ToolbarAction)
    ensures var twice := StatusesAfter(StatusesAfter(statuses, id, action), id, action);
            (Pinned(twice, id) <==> Pinned(statuses, id)) && (Archived(twice, id) <==> Archived(statuses, id))
            && forall j :: j != id ==> Current(twice, j) == Current(statuses, j)
  {
  }

  /** The toast names what happened: the set message exactly when the flag is now set. */
  lemma ToastMatchesFlag(statuses: map<int, EmailStatus>, id: int, action: ToolbarAction)
    ensures var after := StatusesAfter(statuses, id, action);
            var text := ToastText(action, FlagNowSet(statuses, id, action));
            (action == Pin ==> (text == "Pinned this email." <==> Pinned(after, id))
                               && (text == "Unpinned this email." <==> !Pinned(after, id)))
            && (action == Archive ==> (text == "Archived email." <==> Archived(after, id))
                                      && (text == "Restored email from archive." <==> !Archived(after, id)))
  {
  }

  /** Only archiving the selected email clears the selection. */
  lemma SelectionClearedOnlyByArchivingIt(selected: Option<Email>, id: int, action: ToolbarAction, nowSet: bool)
    ensures SelectionAfter(selected, id, action, nowSet) == None <==>
              selected == None || (action == Archive && nowSet && selected.value.id == id)
    ensures SelectionAfter(selected, id, action, nowSet) != None ==> SelectionAfter(selected, id, action, nowSet) == selected
  {
  }

  // ---------------------------------------------------------------------------
  // The derived lists

  /** `emails.filter((mail) => !emailStatuses[mail.id]?.archived)` */
  function Unarchived(emails: seq<Email>, statuses: map<int, EmailStatus>): seq<Email> {
    if emails == [] then []
    else (if Archived(statuses, emails[0].id) then [] else [emails[0]]) + Unarchived(emails[1..], statuses)
  }

  /** `archivedEmails`: `emails.filter((mail) => emailStatuses[mail.id]?.archived)` */
  function ArchivedEmails(emails: seq<Email>, statuses: map<int, EmailStatus>): seq<Email> {
    if emails == [] then []
    else (if Archived(statuses, emails[0].id) then [emails[0]] else []) + ArchivedEmails(emails[1..], statuses)
  }

  /** The two lists split the emails: every email is in exactly one, as often as it is fetched. */
  lemma {:induction false} ListsPartition(emails: seq<Email>, statuses: map<int, EmailStatus>)
    ensures multiset(Unarchived(emails, statuses)) + multiset(ArchivedEmails(emails, statuses)) == multiset(emails)
    ensures forall e :: e in Unarchived(emails, statuses) <==> e in emails && !Archived(statuses, e.id)
    ensures forall e :: e in ArchivedEmails(emails, statuses) <==> e in emails && Archived(statuses, e.id)
  {
    if emails != [] {
      ListsPartition(emails[1..], statuses);
      assert emails == [emails[0]] + emails[1..];
    }
  }

  /** `order.set(mail.id, index)` over the emails: the last index of each id. */
  function OrderOf(emails: seq<Email>): map<int, int>
    decreases |emails|
  {
    if emails == [] then map[]
    else OrderOf(emails[..|emails| - 1])[emails[|emails| - 1].id := |emails| - 1]
  }

  /** `order.get(id) ?? 0` */
  function Position(order: map<int, int>, id: int): int {
    if id in order then order[id] else 0
  }

  /** The `forEach` that fills `order`. */
  method BuildOrder(emails: seq<Email>) returns (order: map<int, int>)
    ensures order == OrderOf(emails)
  {
    order := map[];
    var i := 0;
    while i < |emails|
      invariant 0 <= i <= |emails|
      invariant order == OrderOf(emails[..i])
    {
      assert emails[..i + 1][..i] == emails[..i];
      order := order[emails[i].id := i];
      i := i + 1;
    }
    assert emails[..i] == emails;
  }

  predicate DistinctIds(emails: seq<Email>) {
    forall i, j :: 0 <= i < j < |emails| ==> emails[i].id != emails[j].id
  }

  /** With distinct ids, the order of an email's id is its index. */
  lemma {:induction false} OrderIsIndex(emails: seq<Email>, i: nat)
    requires DistinctIds(emails) && i < |emails|
    ensures emails[i].id in OrderOf(emails) && OrderOf(emails)[emails[i].id] == i
    decreases |emails|
  {
    var n := |emails| - 1;
    if i < n {
      var front := emails[..n];
      assert front[i] == emails[i];
      OrderIsIndex(front, i);
    }
  }

  /** The comparator: pinned before unpinned, then by `order`. */
  function Compare(statuses: map<int, EmailStatus>, order: map<int, int>, a: Email, b: Email): int {
    var aPinned := if Pinned(statuses, a.id) then 1 else 0;
    var bPinned := if Pinned(statuses, b.id) then 1 else 0;
    if aPinned != bPinned then bPinned - aPinned
    else Position(order, a.id) - Position(order, b.id)
  }

  /** Put `x` before the first element it does not sort after. */
  function Insert(statuses: map<int, EmailStatus>, order: map<int, int>, x: Email, s: seq<Email>): seq<Email> {
    if s == [] then [x]
    else if Compare(statuses, order, x, s[0]) <= 0 then [x] + s
    else [s[0]] + Insert(statuses, order, x, s[1..])
  }

  /**
   * `Array.prototype.sort` with the comparator: the library's sort is
   * stable, and every stable sort gives this insertion sort's answer.
   */
  function Sort(statuses: map<int, EmailStatus>, order: map<int, int>, s: seq<Email>): seq<Email> {
    if s == [] then [] else Insert(statuses, order, s[0], Sort(statuses, order, s[1..]))
  }

  /** `sortedEmails` */
  function SortedEmails(emails: seq<Email>, statuses: map<int, EmailStatus>): seq<Email> {
    Sort(statuses, OrderOf(emails), Unarchived(emails, statuses))
  }

  predicate SortedBy(statuses: map<int, EmailStatus>, order: map<int, int>, s: seq<Email>) {
    forall i :: 0 <= i < |s| - 1 ==> Compare(statuses, order, s[i], s[i + 1]) <= 0
  }

  lemma {:induction false} InsertSorted(statuses: map<int, EmailStatus>, order: map<int, int>, x: Email, s: seq<Email>)
    requires SortedBy(statuses, order, s)
    ensures var r := Insert(statuses, order, x, s);
            SortedBy(statuses, order, r) && multiset(r) == multiset(s) + multiset{x}
            && |r| > 0 && (r[0] == x || r[0] == s[0])
  {
    if s != [] && Compare(statuses, order, x, s[0]) > 0 {
      var t := Insert(statuses, order, x, s[1..]);
      InsertSorted(statuses, order, x, s[1..]);
      var r := [s[0]] + t;
      assert s == [s[0]] + s[1..];
      forall i | 0 <= i < |r| - 1 ensures Compare(statuses, order, r[i], r[i + 1]) <= 0 {
        if i > 0 {
          assert r[i] == t[i - 1] && r[i + 1] == t[i];
        }
      }
    }
  }

  /** The sort returns the same emails, in comparator order. */
  lemma {:induction false} SortSortsPermutation(statuses: map<int, EmailStatus>, order: map<int, int>, s: seq<Email>)
    ensures SortedBy(statuses, order, Sort(statuses, order, s))
    ensures multiset(Sort(statuses, order, s)) == multiset(s)
  {
    if s != [] {
      var t := Sort(statuses, order, s[1..]);
      assert Sort(statuses, order, s) == Insert(statuses, order, s[0], t);
      SortSortsPermutation(statuses, order, s[1..]);
      InsertSorted(statuses, order, s[0], t);
      assert s == [s[0]] + s[1..];
      assert multiset(s) == multiset(s[1..]) + multiset{s[0]};
    }
  }

  /** The pinned and the unpinned emails of a list, each in list order. */
  function PinnedOf(statuses: map<int, EmailStatus>, s: seq<Email>): seq<Email> {
    if s == [] then []
    else (if Pinned(statuses, s[0].id) then [s[0]] else []) + PinnedOf(statuses, s[1..])
  }

  function UnpinnedOf(statuses: map<int, EmailStatus>, s: seq<Email>): seq<Email> {
    if s == [] then []
    else (if Pinned(statuses, s[0].id) then [] else [s[0]]) + UnpinnedOf(statuses, s[1..])
  }

  /** Positions strictly increase along the list. */
  predicate Ascending(order: map<int, int>, s: seq<Email>) {
    forall i, j :: 0 <= i < j < |s| ==> Position(order, s[i].id) < Position(order, s[j].id)
  }

  lemma {:induction false} FiltersKeepMembers(statuses: map<int, EmailStatus>, s: seq<Email>)
    ensures forall e :: e in PinnedOf(statuses, s) ==> e in s && Pinned(statuses, e.id)
    ensures forall e :: e in UnpinnedOf(statuses, s) ==> e in s && !Pinned(statuses, e.id)
    ensures forall e :: e in Unarchived(s, statuses) ==> e in s
  {
    if s != [] {
      FiltersKeepMembers(statuses, s[1..]);
    }
  }

  /** An unpinned email that precedes all others lands after the pinned ones and before the unpinned ones. */
  lemma {:induction false} InsertUnpinned(statuses: map<int, EmailStatus>, order: map<int, int>, x: Email,
                                          p: seq<Email>, u: seq<Email>)
    requires !Pinned(statuses, x.id)
    requires forall e :: e in p ==> Pinned(statuses, e.id)
    requires forall e :: e in u ==> !Pinned(statuses, e.id) && Position(order, x.id) < Position(order, e.id)
    ensures Insert(statuses, order, x, p + u) == p + [x] + u
  {
    if p == [] {
      assert p + u == u;
      if u != [] {
        assert u[0] in u;
      }
    } else {
      assert p[0] in p;
      assert (p + u)[0] == p[0] && (p + u)[1..] == p[1..] + u;
      InsertUnpinned(statuses, order, x, p[1..], u);
      assert p + [x] + u == [p[0]] + (p[1..] + [x] + u);
    }
  }

  lemma AscendingTail(order: map<int, int>, s: seq<Email>)
    requires Ascending(order, s) && s != []
    ensures Ascending(order, s[1..])
    ensures forall e :: e in s[1..] ==> Position(order, s[0].id) < Position(order, e.id)
  {
    var rest := s[1..];
    forall i, j | 0 <= i < j < |rest| ensures Position(order, rest[i].id) < Position(order, rest[j].id) {
      assert rest[i] == s[i + 1] && rest[j] == s[j + 1];
    }
    forall e | e in rest ensures Position(order, s[0].id) < Position(order, e.id) {
      var j :| 0 <= j < |rest| && rest[j] == e;
      assert s[j + 1] == e;
    }
  }

  /** A pinned email that precedes all others goes to the front. */
  lemma InsertPinned(statuses: map<int, EmailStatus>, order: map<int, int>, x: Email, s: seq<Email>)
    requires Pinned(statuses, x.id)
    requires forall e :: e in s ==> Position(order, x.id) < Position(order, e.id)
    ensures Insert(statuses, order, x, s) == [x] + s
  {
    if s != [] {
      assert s[0] in s;
    }
  }

  /**
   * With ascending positions the sort puts every pinned email first and keeps
   * list order within each group.
   */
  lemma {:induction false} SortPinnedFirst(statuses: map<int, EmailStatus>, order: map<int, int>, s: seq<Email>)
    requires Ascending(order, s)
    ensures Sort(statuses, order, s) == PinnedOf(statuses, s) + UnpinnedOf(statuses, s)
  {
    if s != [] {
      var x, rest := s[0], s[1..];
      AscendingTail(order, s);
      SortPinnedFirst(statuses, order, rest);
      FiltersKeepMembers(statuses, rest);
      StepPinnedFirst(statuses, order, x, rest);
    }
  }

  /** One step of the sort: insert the head in front of the split tail. */
  lemma StepPinnedFirst(statuses: map<int, EmailStatus>, order: map<int, int>, x: Email, rest: seq<Email>)
    requires forall e :: e in rest ==> Position(order, x.id) < Position(order, e.id)
    requires forall e :: e in PinnedOf(statuses, rest) ==> e in rest && Pinned(statuses, e.id)
    requires forall e :: e in UnpinnedOf(statuses, rest) ==> e in rest && !Pinned(statuses, e.id)
    ensures var p, u := PinnedOf(statuses, rest), UnpinnedOf(statuses, rest);
            Insert(statuses, order, x, p + u) == PinnedOf(statuses, [x] + rest) + UnpinnedOf(statuses, [x] + rest)
  {
    var s := [x] + rest;
    assert s[0] == x && s[1..] == rest;
    if Pinned(statuses, x.id) {
      StepPinned(statuses, order, x, rest);
    } else {
      StepUnpinned(statuses, order, x, rest);
    }
  }

  lemma StepPinned(statuses: map<int, EmailStatus>, order: map<int, int>, x: Email, rest: seq<Email>)
    requires Pinned(statuses, x.id)
    requires forall e :: e in rest ==> Position(order, x.id) < Position(order, e.id)
    requires forall e :: e in PinnedOf(statuses, rest) ==> e in rest
    requires forall e :: e in UnpinnedOf(statuses, rest) ==> e in rest
    ensures var p, u := PinnedOf(statuses, rest), UnpinnedOf(statuses, rest);
            Insert(statuses, order, x, p + u) == ([x] + p) + u
  {
    var p, u := PinnedOf(statuses, rest), UnpinnedOf(statuses, rest);
    forall e: Email | e in p + u ensures Position(order, x.id) < Position(order, e.id) {
      assert e in rest;
    }
    InsertPinned(statuses, order, x, p + u);
    assert [x] + (p + u) == ([x] + p) + u;
  }

  lemma StepUnpinned(statuses: map<int, EmailStatus>, order: map<int, int>, x: Email, rest: seq<Email>)
    requires !Pinned(statuses, x.id)
    requires forall e :: e in rest ==> Position(order, x.id) < Position(order, e.id)
    requires forall e :: e in PinnedOf(statuses, rest) ==> Pinned(statuses, e.id)
    requires forall e :: e in UnpinnedOf(statuses, rest) ==> e in rest && !Pinned(statuses, e.id)
    ensures var p, u := PinnedOf(statuses, rest), UnpinnedOf(statuses, rest);
            Insert(statuses, order, x, p + u) == p + ([x] + u)
  {
    var p, u := PinnedOf(statuses, rest), UnpinnedOf(statuses, rest);
    forall e: Email | e in u ensures !Pinned(statuses, e.id) && Position(order, x.id) < Position(order, e.id) {
      assert e in rest;
    }
    InsertUnpinned(statuses, order, x, p, u);
    assert p + [x] + u == p + ([x] + u);
  }

  /** An email placed before a list whose positions all exceed its own keeps the list ascending. */
  lemma AscendingCons(order: map<int, int>, x: Email, t: seq<Email>)
    requires Ascending(order, t)
    requires forall e :: e in t ==> Position(order, x.id) < Position(order, e.id)
    ensures Ascending(order, [x] + t)
  {
    var r := [x] + t;
    forall i, j | 0 <= i < j < |r| ensures Position(order, r[i].id) < Position(order, r[j].id) {
      if i == 0 {
        assert r[j] == t[j - 1] && t[j - 1] in t;
      } else {
        assert r[i] == t[i - 1] && r[j] == t[j - 1];
      }
    }
  }

  /** Filtering keeps positions ascending. */
  lemma {:induction false} UnarchivedAscending(order: map<int, int>, s: seq<Email>, statuses: map<int, EmailStatus>)
    requires Ascending(order, s)
    ensures Ascending(order, Unarchived(s, statuses))
  {
    if s != [] {
      var rest := s[1..];
      AscendingTail(order, s);
      UnarchivedAscending(order, rest, statuses);
      FiltersKeepMembers(statuses, rest);
      var t := Unarchived(rest, statuses);
      if !Archived(statuses, s[0].id) {
        assert Unarchived(s, statuses) == [s[0]] + t;
        forall e | e in t ensures Position(order, s[0].id) < Position(order, e.id) {
          assert e in rest;
        }
        AscendingCons(order, s[0], t);
      } else {
        assert Unarchived(s, statuses) == t;
      }
    }
  }

  /**
   * `sortedEmails` for fetched emails (whose ids are distinct): the pinned
   * unarchived emails in fetch order, then the unpinned ones in fetch order.
   */
  lemma SortedEmailsPinnedFirst(emails: seq<Email>, statuses: map<int, EmailStatus>)
    requires DistinctIds(emails)
    ensures var v := Unarchived(emails, statuses);
            SortedEmails(emails, statuses) == PinnedOf(statuses, v) + UnpinnedOf(statuses, v)
    ensures multiset(SortedEmails(emails, statuses)) == multiset(Unarchived(emails, statuses))
  {
    var order := OrderOf(emails);
    forall i, j | 0 <= i < j < |emails| ensures Position(order, emails[i].id) < Position(order, emails[j].id) {
      OrderIsIndex(emails, i);
      OrderIsIndex(emails, j);
    }
    UnarchivedAscending(order, emails, statuses);
    SortPinnedFirst(statuses, order, Unarchived(emails, statuses));
    SortSortsPermutation(statuses, order, Unarchived(emails, statuses));
  }

  /** The first fetched email with the given id: `data.find((email) => email.id === id) || null`. */
  function FindById(data: seq<Email>, id: int): (r: Option<Email>)
    ensures r.Some? <==> exists i :: 0 <= i < |data| && data[i].id == id
    ensures r.Some? ==> r.value.id == id && r.value in data
  {
    if data == [] then None
    else if data[0].id == id then Some(data[0])
    else
      var r := FindById(data[1..], id);
      assert forall i :: 1 <= i < |data| ==> data[i] == data[1..][i - 1];
      r
  }

  // ---------------------------------------------------------------------------
  // The state

  class InboxState {
    var emails: seq<Email>
    var selected: Option<Email>
    var statuses: map<int, EmailStatus>
    var toast: Option<string>

    constructor()
      ensures emails == [] && selected == None && statuses == map[] && toast == None
    {
      emails := [];
      selected := None;
      statuses := map[];
      toast := None;
    }

    /** handleEmailToolbarAction: toggle the flag, pick the toast, clear the selection when it is archived. */
    method ToolbarActionOn(email: Email, action: ToolbarAction)
      modifies this
      ensures statuses == StatusesAfter(old(statuses), email.id, action)
      ensures toast == Some(ToastText(action, FlagNowSet(old(statuses), email.id, action)))
      ensures selected == SelectionAfter(old(selected), email.id, action, FlagNowSet(old(statuses), email.id, action))
      ensures emails == old(emails)
    {
      var current := if email.id in statuses then statuses[email.id] else EmailStatus(None, None);
      var updated := current;
      var nextMessage := "";
      match action {
        case Pin =>
          updated := updated.(pinned := Some(!IsSet(current.pinned)));
          nextMessage := if updated.pinned == Some(true) then "Pinned this email." else "Unpinned this email.";
        case Archive =>
          updated := updated.(archived := Some(!IsSet(current.archived)));
          nextMessage := if updated.archived == Some(true) then "Archived email." else "Restored email from archive.";
          if updated.archived == Some(true) && selected.Some? && selected.value.id == email.id {
            selected := None;
          }
      }
      statuses := statuses[email.id := updated];
      if nextMessage != "" {
        toast := Some(nextMessage);
      }
    }

    /** loadEmails: replace the emails and refresh the selection from them. */
    method LoadEmails(data: seq<Email>)
      modifies this
      ensures emails == data
      ensures selected == (if old(selected).Some? then FindById(data, old(selected).value.id) else None)
      ensures statuses == old(statuses) && toast == old(toast)
    {
      emails := data;
      if selected.Some? {
        selected := FindById(data, selected.value.id);
      }
    }

    /** `sortedEmails`, computed as the memo does: the order map, the filter, the sort. */
    method SortedView() returns (view: seq<Email>)
      ensures view == SortedEmails(emails, statuses)
    {
      var order := BuildOrder(emails);
      view := Sort(statuses, order, Unarchived(emails, statuses));
    }
  }

  /** After a reload the selection is the fetched email with the same id, or nothing when there is none. */
  lemma ReloadSelection(data: seq<Email>, id: int)
    ensures FindById(data, id).Some? ==> FindById(data, id).value.id == id && FindById(data, id).value in data
    ensures FindById(data, id).None? <==> forall e :: e in data ==> e.id != id
  {
  }
}
