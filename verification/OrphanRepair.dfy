/** repairIMAPImportOrphans, repairOneIMAPImportOrphan and resolveOrCreateSpecialMailbox
    of internal/admin/imapimport_repair_orphans.go, over a store whose calls may fail. */
module OrphanRepair {
  import opened Options
  import opened OrphanSpec
  import opened OrphanProofs
  import opened Strings

  const PAGE: nat := 1000

  datatype Lookup = Found(boxes: seq<nat>) | Missing | Broken
  datatype Inserted = Made(id: nat) | Conflict | Refused
  datatype Added = Joined | AlreadyThere | NotAdded

  // -- Pages ----------------------------------------------------------------

  /** The members above a UID. */
  function Above(rows: seq<Row>, after: nat): seq<Row> {
    if rows == [] then []
    else
      var rest, x := Above(rows[..|rows| - 1], after), rows[|rows| - 1];
      if x.uid > after then rest + [x] else rest
  }

  function Page(rows: seq<Row>, mailbox: nat, after: nat): seq<Row> {
    var all := Above(Members(rows, mailbox), after);
    if |all| <= PAGE then all else all[..PAGE]
  }

  predicate Ascending(rows: seq<Row>) {
    && (forall i :: 0 <= i < |rows| ==> rows[i].uid > 0)
    && (forall i, j :: 0 <= i < j < |rows| ==> rows[i].uid < rows[j].uid)
  }

  /** The UID of the last of the first k members. */
  function LastUid(rows: seq<Row>, k: nat): nat
    requires k <= |rows|
  {
    if k == 0 then 0 else rows[k - 1].uid
  }

  lemma {:induction false} AboveSplits(rows: seq<Row>, k: nat)
    requires Ascending(rows) && k <= |rows|
    ensures Above(rows, LastUid(rows, k)) == rows[k..]
  {
    if k == |rows| {
      NoneAbove(rows, LastUid(rows, k));
    } else {
      var some, x := rows[..|rows| - 1], rows[|rows| - 1];
      AboveSplits(some, k);
      assert LastUid(some, k) == LastUid(rows, k) < x.uid;
      assert rows[k..] == some[k..] + [x];
    }
  }

  lemma {:induction false} NoneAbove(rows: seq<Row>, after: nat)
    requires forall i :: 0 <= i < |rows| ==> rows[i].uid <= after
    ensures Above(rows, after) == []
  {
    if rows != [] {
      NoneAbove(rows[..|rows| - 1], after);
    }
  }

  lemma {:induction false} MembersAscending(rows: seq<Row>, mailbox: nat)
    requires forall i :: 0 <= i < |rows| ==> rows[i].uid > 0
    requires forall i, j :: 0 <= i < j < |rows| && rows[i].mailbox == rows[j].mailbox ==> rows[i].uid < rows[j].uid
    ensures Ascending(Members(rows, mailbox))
  {
    if rows != [] {
      var some, x := rows[..|rows| - 1], rows[|rows| - 1];
      MembersAscending(some, mailbox);
      var ms := Members(some, mailbox);
      forall i | 0 <= i < |ms| && x.mailbox == mailbox ensures ms[i].uid < x.uid {
        assert ms[i] in some;
        var j :| 0 <= j < |some| && some[j] == ms[i];
      }
    }
  }

  /** The page after the first k members is the next thousand of them. */
  lemma PageAt(st: State, mailbox: nat, k: nat)
    requires WellFormed(st) && k <= |Members(st.rows, mailbox)|
    ensures var ms := Members(st.rows, mailbox);
            Page(st.rows, mailbox, LastUid(ms, k)) == ms[k..if |ms| - k <= 1000 then |ms| else k + 1000]
  {
    MembersAscending(st.rows, mailbox);
    AboveSplits(Members(st.rows, mailbox), k);
  }

  // -- The store ------------------------------------------------------------

  /** One principal's mail. A faulty store may fail any call, lose a message to another
      process, or have another process make a mailbox first. */
  class MailStore {
    const faulty: bool
    var mailboxes: seq<Mailbox>
    var rows: seq<Row>
    var tracked: set<(string, nat)>
    var verdicts: map<nat, string>
    var uidNext: map<nat, nat>
    var nextMailbox: nat
    // The roles for which a mailbox was made here, the messages looked up, and how many
    // of them could not be dealt with.
    ghost var made: seq<Attr>
    ghost var looked: seq<nat>
    ghost var failed: nat

    ghost function View(): State
      reads this
    {
      State(mailboxes, rows, tracked, verdicts, uidNext, nextMailbox)
    }

    /** A role a mailbox was made for has a mailbox, and was made once. */
    ghost predicate Valid()
      reads this
    {
      && WellFormed(View()) && nextMailbox > 0
      && (forall attr :: attr in made ==> Existing(mailboxes, attr).Some?)
      && (forall i, j :: 0 <= i < j < |made| ==> made[i] != made[j])
    }

    method Works() returns (ok: bool)
      ensures !faulty ==> ok
    {
      ok := *;
      if !faulty {
        ok := true;
      }
    }

    method ListMessages(mailbox: nat, after: nat) returns (ok: bool, page: seq<Row>)
      ensures !faulty ==> ok
      ensures page == Page(rows, mailbox, after)
    {
      ok := Works();
      page := Page(rows, mailbox, after);
    }

    method GetMessage(msg: nat) returns (r: Lookup)
      modifies this`looked
      ensures looked == old(looked) + [msg]
      ensures r.Found? ==> r.boxes == Boxes(rows, msg)
      ensures !faulty ==> r.Found?
    {
      var ok := Works();
      var raced: bool := *;
      looked := looked + [msg];
      r := if ok then Found(Boxes(rows, msg)) else if raced then Missing else Broken;
    }

    method IsTracked(account: string, msg: nat) returns (ok: bool, found: bool)
      ensures !faulty ==> ok
      ensures found <==> (account, msg) in tracked
    {
      ok := Works();
      found := (account, msg) in tracked;
    }

    method GetVerdict(msg: nat) returns (r: Option<string>)
      ensures r.Some? ==> msg in verdicts && r.value == verdicts[msg]
      ensures !faulty && r.None? ==> msg !in verdicts
    {
      var ok := Works();
      r := if ok && msg in verdicts then Some(verdicts[msg]) else None;
    }

    method ListMailboxes() returns (ok: bool, mbs: seq<Mailbox>)
      requires Valid()
      ensures !faulty ==> ok
      ensures mbs == (if ok then mailboxes else []) && ByName(mbs)
    {
      ok := Works();
      mbs := if ok then mailboxes else [];
    }

    method InsertMailbox(attr: Attr) returns (r: Inserted)
      requires Valid() && Existing(mailboxes, attr).None?
      modifies this`mailboxes, this`nextMailbox, this`made
      ensures Valid() && (!faulty ==> r.Made?)
      ensures r.Made? ==> r.id == old(nextMailbox) && View() == CreateMailbox(old(View()), NameOf(attr), {attr})
      ensures made == if r.Made? then old(made) + [attr] else old(made)
    {
      var ok := Works();
      var rival: bool := *;
      if !ok && !rival {
        return Refused;
      }
      var attrs := if ok then {attr} else {};
      InsertKeeps(View(), NameOf(attr), attrs);
      assert attr !in made;
      var mb := Mailbox(nextMailbox, NameOf(attr), attrs);
      r := if ok then Made(nextMailbox) else Conflict;
      ResolvedEffect(View(), attr, attr);
      made := if ok then made + [attr] else made;
      mailboxes, nextMailbox := InsertByName(mailboxes, mb), nextMailbox + 1;
    }

    method AddMessage(msg: nat, mailbox: nat) returns (r: Added)
      requires Valid()
      modifies this`rows, this`uidNext
      ensures Valid() && (!faulty ==> r != NotAdded)
      ensures View() == if r == Joined then AddTo(old(View()), msg, mailbox) else old(View())
      ensures r == Joined ==> mailbox !in Boxes(old(rows), msg)
      ensures r == AlreadyThere ==> mailbox in Boxes(old(rows), msg)
    {
      hide WellFormed, Existing, Boxes;
      var ok := Works();
      if !ok {
        return NotAdded;
      }
      if mailbox in Boxes(rows, msg) {
        return AlreadyThere;
      }
      AddKeeps(View(), msg, mailbox);
      var uid := if mailbox in uidNext then uidNext[mailbox] else 1;
      rows, uidNext := rows + [Row(mailbox, msg, uid)], uidNext[mailbox := uid + 1];
      r := Joined;
    }
  }

  lemma {:induction false} FirstKept(mbs: seq<Mailbox>, mb: Mailbox, attr: Attr, name: string)
    ensures FirstWith(mbs, attr).Some? ==> FirstWith(InsertByName(mbs, mb), attr).Some?
    ensures FirstNamed(mbs, name).Some? ==> FirstNamed(InsertByName(mbs, mb), name).Some?
    ensures forall x :: x in InsertByName(mbs, mb) ==> x in mbs || x == mb
  {
    hide EqualFold;
    if mbs != [] {
      FirstKept(mbs[1..], mb, attr, name);
      assert ([mb] + mbs)[1..] == mbs;
      assert ([mbs[0]] + InsertByName(mbs[1..], mb))[1..] == InsertByName(mbs[1..], mb);
    }
  }

  lemma {:induction false} InsertSorted(mbs: seq<Mailbox>, mb: Mailbox)
    requires ByName(mbs)
    ensures ByName(InsertByName(mbs, mb))
  {
    hide Le;
    if mbs != [] {
      LeTotal(mb.name, mbs[0].name);
      if Le(mb.name, mbs[0].name) {
        forall j | 0 <= j < |mbs| ensures Le(mb.name, mbs[j].name) {
          if j > 0 {
            LeTransitive(mb.name, mbs[0].name, mbs[j].name);
          }
        }
      } else {
        InsertSorted(mbs[1..], mb);
        var rest := InsertByName(mbs[1..], mb);
        FirstKept(mbs[1..], mb, Inbox, "");
        forall j | 0 <= j < |rest| ensures Le(mbs[0].name, rest[j].name) {
          assert rest[j] in rest;
        }
      }
    }
  }

  lemma InsertKeeps(st: State, name: string, attrs: set<Attr>)
    requires WellFormed(st) && st.nextMailbox > 0
    ensures WellFormed(CreateMailbox(st, name, attrs))
    ensures forall attr :: Existing(st.mailboxes, attr).Some? ==>
              Existing(CreateMailbox(st, name, attrs).mailboxes, attr).Some?
  {
    hide EqualFold, FirstWith, FirstNamed, InsertByName;
    var mb := Mailbox(st.nextMailbox, name, attrs);
    forall attr: Attr
      ensures Existing(st.mailboxes, attr).Some? ==> Existing(CreateMailbox(st, name, attrs).mailboxes, attr).Some?
    {
      FirstKept(st.mailboxes, mb, attr, NameOf(attr));
    }
    FirstKept(st.mailboxes, mb, Inbox, name);
    InsertSorted(st.mailboxes, mb);
    var mbs := InsertByName(st.mailboxes, mb);
    forall i | 0 <= i < |mbs| ensures 0 < mbs[i].id < st.nextMailbox + 1 {
      assert mbs[i] in mbs;
    }
  }

  lemma AddKeeps(st: State, msg: nat, mailbox: nat)
    requires WellFormed(st) && mailbox !in Boxes(st.rows, msg)
    ensures WellFormed(AddTo(st, msg, mailbox))
  {
    var st' := AddTo(st, msg, mailbox);
    var n := |st.rows|;
    forall i, j | 0 <= i < j < |st'.rows| && st'.rows[i].mailbox == st'.rows[j].mailbox
      ensures st'.rows[i].uid < st'.rows[j].uid && st'.rows[i].msg != st'.rows[j].msg
    {
      assert st'.rows[i] == st.rows[i];
      if j == n {
        assert st.rows[i] in st.rows;
      } else {
        assert st'.rows[j] == st.rows[j];
      }
    }
    forall i | 0 <= i < |st'.rows| ensures 0 < st'.rows[i].uid < UidNext(st', st'.rows[i].mailbox) {
      if i < n {
        assert st'.rows[i] == st.rows[i];
      }
    }
  }

  // -- Resolving INBOX and Junk ---------------------------------------------

  method FindWith(mbs: seq<Mailbox>, attr: Attr) returns (r: Option<nat>)
    ensures r == FirstWith(mbs, attr)
  {
    for i := 0 to |mbs|
      invariant FirstWith(mbs, attr) == FirstWith(mbs[i..], attr)
    {
      if attr in mbs[i].attrs {
        return Some(mbs[i].id);
      }
      assert mbs[i..][1..] == mbs[i + 1..];
    }
    r := None;
  }

  method FindNamed(mbs: seq<Mailbox>, name: string) returns (r: Option<nat>)
    ensures r == FirstNamed(mbs, name)
  {
    hide EqualFold;
    for i := 0 to |mbs|
      invariant FirstNamed(mbs, name) == FirstNamed(mbs[i..], name)
    {
      if EqualFold(mbs[i].name, name) {
        return Some(mbs[i].id);
      }
      assert mbs[i..][1..] == mbs[i + 1..];
    }
    r := None;
  }

  /** resolveOrCreateSpecialMailbox: a mailbox is made only when no other will do. */
  method ResolveOrCreate(store: MailStore, attr: Attr) returns (r: Option<nat>)
    requires store.Valid()
    modifies store`mailboxes, store`nextMailbox, store`made
    ensures store.Valid() && old(store.made) <= store.made
    ensures !store.faulty ==> r.Some? && (store.View(), r.value) == Resolved(old(store.View()), attr)
  {
    hide WellFormed, FirstWith, FirstNamed, InsertByName, NameOf;
    var ok, mbs := store.ListMailboxes();
    if !ok {
      return None;
    }
    r := FindWith(mbs, attr);
    if r.Some? {
      return;
    }
    r := FindNamed(mbs, NameOf(attr));
    if r.Some? {
      return;
    }
    var made := store.InsertMailbox(attr);
    match made
    case Made(id) => r := Some(id);
    case Conflict =>
      var _, mbs2 := store.ListMailboxes();
      r := FindNamed(mbs2, NameOf(attr));
    case Refused => r := None;
  }

  // -- One member -----------------------------------------------------------

  /** The memberships after looking at one member: the same, or one more, of an orphan,
      in another mailbox. */
  predicate OneMore(st: State, st': State, acc: Account, msg: nat) {
    && st'.tracked == st.tracked && st'.verdicts == st.verdicts
    && (st'.rows == st.rows
        || (IsOrphan(st, acc, msg) && |st'.rows| == |st.rows| + 1 && st'.rows[..|st.rows|] == st.rows
            && st'.rows[|st.rows|].msg == msg && st'.rows[|st.rows|].mailbox != acc.tag))
  }

  /** Whether the message is an orphan, as far as the store tells. */
  method CheckOrphan(store: MailStore, acc: Account, msg: nat) returns (ok: bool, orphan: bool)
    modifies store`looked
    ensures store.looked == old(store.looked) + [msg]
    ensures ok && orphan ==> IsOrphan(store.View(), acc, msg)
    ensures !store.faulty ==> ok && orphan == IsOrphan(store.View(), acc, msg)
  {
    var full := store.GetMessage(msg);
    match full
    case Missing => return true, false;
    case Broken => return false, false;
    case Found(boxes) =>
      if |boxes| != 1 || boxes[0] != acc.tag {
        return true, false;
      }
      var found;
      ok, found := store.IsTracked(acc.id, msg);
      orphan := ok && !found;
  }

  method TryRepair(store: MailStore, acc: Account, msg: nat, dryRun: bool) returns (ok: bool, f: Finding)
    requires store.Valid()
    modifies store
    ensures store.failed == old(store.failed)
    ensures store.Valid() && OneMore(old(store.View()), store.View(), acc, msg)
    ensures store.looked == old(store.looked) + [msg] && old(store.made) <= store.made
    ensures dryRun ==> store.View() == old(store.View()) && store.made == old(store.made)
    ensures !store.faulty ==>
              && ok && f == FindingFor(old(store.View()), acc, msg)
              && store.View() == OrphanSpec.RepairOne(old(store.View()), acc, msg, dryRun)
    ensures f.Filed? && f.junk ==> msg in old(store.verdicts) && EqualFold(old(store.verdicts)[msg], "spam")
    ensures !store.faulty && f.Filed? && msg in old(store.verdicts) && EqualFold(old(store.verdicts)[msg], "spam") ==>
              f.junk
  {
    hide WellFormed, Boxes, Existing, EqualFold, Resolved;
    var orphan;
    ok, orphan := CheckOrphan(store, acc, msg);
    if !ok || !orphan {
      return ok, NotOrphan;
    }
    var verdict := store.GetVerdict(msg);
    var junk := verdict.Some? && EqualFold(verdict.value, "spam");
    if dryRun {
      return true, Filed(junk);
    }
    var mb := ResolveOrCreate(store, if junk then Junk else Inbox);
    if mb.None? {
      return false, NotOrphan;
    }
    var added := store.AddMessage(msg, mb.value);
    if added == NotAdded {
      return false, NotOrphan;
    }
    ok, f := true, Filed(junk);
  }

  /** repairOneIMAPImportOrphan, and whether it failed. */
  method RepairOne(store: MailStore, acc: Account, msg: nat, dryRun: bool) returns (ok: bool, f: Finding)
    requires store.Valid()
    modifies store
    ensures store.failed == old(store.failed) + if ok then 0 else 1
    ensures store.Valid() && OneMore(old(store.View()), store.View(), acc, msg)
    ensures store.looked == old(store.looked) + [msg] && old(store.made) <= store.made
    ensures dryRun ==> store.View() == old(store.View()) && store.made == old(store.made)
    ensures !store.faulty ==>
              && ok && f == FindingFor(old(store.View()), acc, msg)
              && store.View() == OrphanSpec.RepairOne(old(store.View()), acc, msg, dryRun)
    ensures f.Filed? && f.junk ==> msg in old(store.verdicts) && EqualFold(old(store.verdicts)[msg], "spam")
    ensures !store.faulty && f.Filed? && msg in old(store.verdicts) && EqualFold(old(store.verdicts)[msg], "spam") ==>
              f.junk
  {
    hide WellFormed, Boxes, Existing, EqualFold, OneMore, FindingFor, OrphanSpec.RepairOne;
    ok, f := TryRepair(store, acc, msg, dryRun);
    store.failed := store.failed + if ok then 0 else 1;
  }

  // -- Only orphans gain a membership ---------------------------------------

  lemma {:induction false} BoxesConcat(a: seq<Row>, b: seq<Row>, msg: nat)
    ensures Boxes(a + b, msg) == Boxes(a, msg) + Boxes(b, msg)
  {
    if b == [] {
      assert a + b == a;
    } else {
      var some := b[..|b| - 1];
      BoxesConcat(a, some, msg);
      assert (a + b)[..|a + b| - 1] == a + some;
    }
  }

  /** Memberships are only added, each to a message that was an orphan to begin with,
      and no message gains two. */
  ghost predicate OnlyOrphans(st0: State, st: State, accs: seq<Account>) {
    && st.tracked == st0.tracked && st.verdicts == st0.verdicts
    && |st0.rows| <= |st.rows| && st.rows[..|st0.rows|] == st0.rows
    && (forall i :: |st0.rows| <= i < |st.rows| ==> WasOrphan(st0, accs, st.rows[i].msg))
    && (forall i, j :: |st0.rows| <= i < j < |st.rows| ==> st.rows[i].msg != st.rows[j].msg)
  }

  predicate WasOrphan(st0: State, accs: seq<Account>, msg: nat) {
    exists acc :: acc in accs && acc.tag != 0 && IsOrphan(st0, acc, msg)
  }

  /** A message that was an orphan and gained a membership is in two mailboxes. */
  lemma FiledHasTwo(st0: State, more: seq<Row>, accs: seq<Account>, x: Row)
    requires x in more && WasOrphan(st0, accs, x.msg)
    ensures |Boxes(st0.rows + more, x.msg)| >= 2
  {
    BoxesConcat(st0.rows, more, x.msg);
    assert x.mailbox in Boxes(more, x.msg);
  }

  lemma OnlyOrphansOn(st0: State, st: State, st': State, accs: seq<Account>, acc: Account, msg: nat)
    requires OnlyOrphans(st0, st, accs) && OneMore(st, st', acc, msg) && acc in accs && acc.tag != 0
    ensures OnlyOrphans(st0, st', accs)
  {
    if st'.rows != st.rows {
      hide Boxes, WasOrphan;
      var more := st.rows[|st0.rows|..];
      assert st.rows == st0.rows + more;
      NotYetFiled(st0, st, accs, more, acc, msg);
      hide IsOrphan;
      OrphanAdded(st0, st, st', accs);
    }
  }

  /** What has just been filed was an orphan to begin with, and had not been filed. */
  lemma NotYetFiled(st0: State, st: State, accs: seq<Account>, more: seq<Row>, acc: Account, msg: nat)
    requires OnlyOrphans(st0, st, accs) && st.rows == st0.rows + more && acc in accs && acc.tag != 0
             && IsOrphan(st, acc, msg)
    ensures WasOrphan(st0, accs, msg)
    ensures forall i :: |st0.rows| <= i < |st.rows| ==> st.rows[i].msg != msg
  {
    hide Boxes, WasOrphan;
    forall i | 0 <= i < |more| ensures more[i].msg != msg {
      assert more[i] == st.rows[|st0.rows| + i];
      FiledHasTwo(st0, more, accs, more[i]);
    }
    NewlyOrphan(st0, more, accs, acc, msg);
    assert forall i :: |st0.rows| <= i < |st.rows| ==> st.rows[i] == more[i - |st0.rows|];
  }

  lemma OrphanAdded(st0: State, st: State, st': State, accs: seq<Account>)
    requires OnlyOrphans(st0, st, accs) && st'.tracked == st.tracked && st'.verdicts == st.verdicts
    requires |st'.rows| == |st.rows| + 1 && st'.rows[..|st.rows|] == st.rows
    requires WasOrphan(st0, accs, st'.rows[|st.rows|].msg)
    requires forall i :: |st0.rows| <= i < |st.rows| ==> st.rows[i].msg != st'.rows[|st.rows|].msg
    ensures OnlyOrphans(st0, st', accs)
  {
    hide WasOrphan;
    assert forall i :: 0 <= i < |st.rows| ==> st'.rows[i] == st.rows[i];
    assert st'.rows[..|st0.rows|] == st0.rows;
  }

  lemma NewlyOrphan(st0: State, more: seq<Row>, accs: seq<Account>, acc: Account, msg: nat)
    requires forall i :: 0 <= i < |more| ==> more[i].msg != msg
    requires acc in accs && acc.tag != 0 && IsOrphan(st0.(rows := st0.rows + more), acc, msg)
    ensures WasOrphan(st0, accs, msg)
  {
    BoxesConcat(st0.rows, more, msg);
    NoBoxes(more, msg);
    assert IsOrphan(st0, acc, msg);
  }

  lemma {:induction false} NoBoxes(rows: seq<Row>, msg: nat)
    requires forall i :: 0 <= i < |rows| ==> rows[i].msg != msg
    ensures Boxes(rows, msg) == []
  {
    if rows != [] {
      NoBoxes(rows[..|rows| - 1], msg);
    }
  }

  // -- One account, page by page --------------------------------------------

  predicate Balanced(sum: Summary) {
    sum.orphans == sum.junk + sum.inbox && sum.orphans + sum.errors <= sum.members
  }

  function Counted(sum: Summary, ok: bool, f: Finding): Summary {
    if ok then Tally(sum, f) else sum.(members := sum.members + 1, errors := sum.errors + 1)
  }

  /** A message of the label gains no membership of the label. */
  lemma LabelStays(st: State, st': State, acc: Account, msg: nat)
    requires OneMore(st, st', acc, msg)
    ensures Members(st'.rows, acc.tag) == Members(st.rows, acc.tag)
  {
    if st'.rows != st.rows {
      assert st'.rows == st.rows + [st'.rows[|st.rows|]];
      MembersAppend(st.rows, st'.rows[|st.rows|], acc.tag);
    }
  }

  lemma ScanOn(run: Run, acc: Account, ms: seq<Row>, k: nat, dryRun: bool)
    requires k < |ms|
    ensures var before := ScanMembers(run, acc, ms[..k], dryRun);
            ScanMembers(run, acc, ms[..k + 1], dryRun) ==
              Run(OrphanSpec.RepairOne(before.st, acc, ms[k].msg, dryRun),
                  Tally(before.sum, FindingFor(before.st, acc, ms[k].msg)))
    ensures MsgSeq(ms[..k + 1]) == MsgSeq(ms[..k]) + [ms[k].msg]
  {
    assert ms[..k + 1][..k] == ms[..k];
  }

  function MsgSeq(rows: seq<Row>): seq<nat> {
    seq(|rows|, i requires 0 <= i < |rows| => rows[i].msg)
  }

  /** How far an account's scan has come: since the log given, the first k of its members
      have been looked at, each once and in the order of their UIDs, and as many errors
      counted as members could not be dealt with. */
  ghost predicate Scanned(store: MailStore, log: seq<nat>, base: nat, run: Run, sum: Summary, acc: Account,
                          ms: seq<Row>, k: nat, dryRun: bool)
    reads store
    requires k <= |ms|
  {
    && Members(store.rows, acc.tag) == ms
    && store.looked == log + MsgSeq(ms[..k])
    && Balanced(sum) && sum.members == run.sum.members + k && sum.errors - run.sum.errors == store.failed - base
    && (dryRun ==> store.View() == run.st)
    && (!store.faulty ==> Run(store.View(), sum) == ScanMembers(run, acc, ms[..k], dryRun))
  }

  /** The members of one page. */
  method ScanPage(store: MailStore, acc: Account, page: seq<Row>, sum0: Summary, dryRun: bool,
                  ghost log: seq<nat>, ghost base: nat, ghost run: Run, ghost ms: seq<Row>, ghost k: nat,
                  ghost st0: State, ghost accs: seq<Account>)
    returns (after: nat, sum: Summary)
    requires store.Valid() && page != [] && k + |page| <= |ms| && page == ms[k..k + |page|]
    requires Scanned(store, log, base, run, sum0, acc, ms, k, dryRun)
    requires acc in accs && acc.tag != 0 && OnlyOrphans(st0, store.View(), accs)
    modifies store
    ensures store.Valid() && Scanned(store, log, base, run, sum, acc, ms, k + |page|, dryRun)
    ensures old(store.made) <= store.made
    ensures after == LastUid(ms, k + |page|) && OnlyOrphans(st0, store.View(), accs)
  {
    hide WellFormed, Existing, OnlyOrphans, OneMore, Members, FindingFor, OrphanSpec.RepairOne, ScanMembers, MsgSeq;
    after, sum := 0, sum0;
    for i := 0 to |page|
      invariant store.Valid() && OnlyOrphans(st0, store.View(), accs) && old(store.made) <= store.made
      invariant Scanned(store, log, base, run, sum, acc, ms, k + i, dryRun)
      invariant i > 0 ==> after == page[i - 1].uid
    {
      after := page[i].uid;
      ghost var before := store.View();
      ScanOn(run, acc, ms, k + i, dryRun);
      var ok, f := RepairOne(store, acc, page[i].msg, dryRun);
      OnlyOrphansOn(st0, before, store.View(), accs, acc, page[i].msg);
      LabelStays(before, store.View(), acc, page[i].msg);
      sum := Counted(sum, ok, f);
    }
  }

  /** The page after the first k members; a short one is the last. */
  method NextPage(store: MailStore, mailbox: nat, after: nat, ghost ms: seq<Row>, ghost k: nat)
    returns (ok: bool, page: seq<Row>)
    requires store.Valid() && Members(store.rows, mailbox) == ms && k <= |ms| && after == LastUid(ms, k)
    ensures !store.faulty ==> ok
    ensures k + |page| <= |ms| && page == ms[k..k + |page|] && (|page| < PAGE ==> k + |page| == |ms|)
  {
    PageAt(store.View(), mailbox, k);
    ok, page := store.ListMessages(mailbox, after);
  }

  /** The paging loop: it ends, and has then looked at every member of the label once. */
  method ScanLabel(store: MailStore, acc: Account, sum0: Summary, dryRun: bool, ghost st0: State,
                   ghost accs: seq<Account>)
    returns (ok: bool, sum: Summary, ghost k: nat)
    requires store.Valid() && Balanced(sum0)
    requires acc in accs && acc.tag != 0 && OnlyOrphans(st0, store.View(), accs)
    modifies store
    ensures store.Valid() && OnlyOrphans(st0, store.View(), accs) && old(store.made) <= store.made
    ensures k <= |Members(old(store.rows), acc.tag)| && (ok ==> k == |Members(old(store.rows), acc.tag)|)
    ensures Scanned(store, old(store.looked), old(store.failed), Run(old(store.View()), sum0), sum, acc,
                    Members(old(store.rows), acc.tag), k, dryRun)
    ensures !store.faulty ==> ok
  {
    hide WellFormed, Existing, OnlyOrphans, Members, Scanned;
    ghost var ms, run := Members(store.rows, acc.tag), Run(store.View(), sum0);
    ok, sum, k := true, sum0, 0;
    ScanBegins(store, run, acc, ms, dryRun);
    ghost var log, base := store.looked, store.failed;
    var after := 0;
    while true
      invariant store.Valid() && OnlyOrphans(st0, store.View(), accs) && ok && old(store.made) <= store.made
      invariant k <= |ms| && after == LastUid(ms, k) && Scanned(store, log, base, run, sum, acc, ms, k, dryRun)
      decreases |ms| - k
    {
      LabelAsListed(store, log, base, run, sum, acc, ms, k, dryRun);
      var page;
      ok, page := NextPage(store, acc.tag, after, ms, k);
      if !ok {
        return;
      }
      if |page| == 0 {
        break;
      }
      after, sum := ScanPage(store, acc, page, sum, dryRun, log, base, run, ms, k, st0, accs);
      k := k + |page|;
      if |page| < PAGE {
        break;
      }
    }
  }

  /** One account; one that was never enabled has nothing to scan. */
  method ScanOneAccount(store: MailStore, acc: Account, sum0: Summary, dryRun: bool, ghost st0: State,
                        ghost accs: seq<Account>)
    returns (ok: bool, sum: Summary)
    requires store.Valid() && Balanced(sum0) && acc in accs && OnlyOrphans(st0, store.View(), accs)
    modifies store
    ensures store.Valid() && Balanced(sum) && OnlyOrphans(st0, store.View(), accs) && old(store.made) <= store.made
    ensures old(store.looked) <= store.looked && |store.looked| - |old(store.looked)| == sum.members - sum0.members
    ensures sum.errors - sum0.errors == store.failed - old(store.failed)
    ensures dryRun ==> store.View() == old(store.View())
    ensures !store.faulty ==> ok && Run(store.View(), sum) == ScanAccount(Run(old(store.View()), sum0), acc, dryRun)
  {
    hide WellFormed, Existing, Members, Scanned, OnlyOrphans, ScanMembers;
    if acc.tag == 0 {
      return true, sum0;
    }
    sum := sum0.(accounts := sum0.accounts + 1);
    ghost var run := Run(store.View(), sum);
    ghost var k, log, base := 0, store.looked, store.failed;
    ok, sum, k := ScanLabel(store, acc, sum, dryRun, st0, accs);
    ScannedAll(store, log, base, run, sum, acc, Members(run.st.rows, acc.tag), k, dryRun);
  }

  /** repairIMAPImportOrphans. Whatever fails: the counts balance, memberships are only
      added, once each and only to what were orphans, and a dry run writes nothing. If
      nothing fails, the run is the one specified. */
  method RepairOrphans(store: MailStore, accounts: seq<Account>, dryRun: bool) returns (ok: bool, sum: Summary)
    requires store.Valid()
    modifies store
    ensures store.Valid() && Balanced(sum) && old(store.made) <= store.made
    ensures old(store.looked) <= store.looked && |store.looked| - |old(store.looked)| == sum.members
    ensures store.failed - old(store.failed) == sum.errors
    ensures OnlyOrphans(old(store.View()), store.View(), accounts)
    ensures dryRun ==> store.View() == old(store.View())
    ensures !store.faulty ==> ok && Run(store.View(), sum) == Repair(old(store.View()), accounts, dryRun)
  {
    sum := NOTHING;
    ghost var st0 := store.View();
    Unscanned(st0, accounts, dryRun);
    ok := store.Works();
    if !ok {
      return;
    }
    for i := 0 to |accounts|
      invariant store.Valid() && Balanced(sum) && ok && OnlyOrphans(st0, store.View(), accounts)
      invariant old(store.made) <= store.made
      invariant old(store.looked) <= store.looked && |store.looked| - |old(store.looked)| == sum.members
      invariant store.failed - old(store.failed) == sum.errors
      invariant dryRun ==> store.View() == st0
      invariant !store.faulty ==> Run(store.View(), sum) == ScanAccounts(Run(st0, NOTHING), accounts[..i], dryRun)
    {
      AccountsOn(Run(st0, NOTHING), accounts, i, dryRun);
      ok, sum := ScanOneAccount(store, accounts[i], sum, dryRun, st0, accounts);
      if !ok {
        return;
      }
    }
    assert accounts[..|accounts|] == accounts;
  }

  lemma Unscanned(st: State, accs: seq<Account>, dryRun: bool)
    ensures OnlyOrphans(st, st, accs) && ScanAccounts(Run(st, NOTHING), accs[..0], dryRun) == Run(st, NOTHING)
  {
  }

  lemma ScanBegins(store: MailStore, run: Run, acc: Account, ms: seq<Row>, dryRun: bool)
    requires store.View() == run.st && Members(run.st.rows, acc.tag) == ms && Balanced(run.sum)
    ensures Scanned(store, store.looked, store.failed, run, run.sum, acc, ms, 0, dryRun)
  {
  }

  lemma LabelAsListed(store: MailStore, log: seq<nat>, base: nat, run: Run, sum: Summary, acc: Account, ms: seq<Row>,
                      k: nat, dryRun: bool)
    requires k <= |ms| && Scanned(store, log, base, run, sum, acc, ms, k, dryRun)
    ensures Members(store.rows, acc.tag) == ms
  {
  }

  lemma AccountsOn(run: Run, accs: seq<Account>, i: nat, dryRun: bool)
    requires i < |accs|
    ensures ScanAccounts(run, accs[..i + 1], dryRun) ==
              ScanAccount(ScanAccounts(run, accs[..i], dryRun), accs[i], dryRun)
  {
    assert accs[..i + 1][..i] == accs[..i];
  }

  lemma ScannedAll(store: MailStore, log: seq<nat>, base: nat, run: Run, sum: Summary, acc: Account, ms: seq<Row>,
                   k: nat, dryRun: bool)
    requires k <= |ms| && Scanned(store, log, base, run, sum, acc, ms, k, dryRun)
    ensures log <= store.looked && |store.looked| - |log| == sum.members - run.sum.members
    ensures sum.errors - run.sum.errors == store.failed - base
    ensures Balanced(sum) && (dryRun ==> store.View() == run.st)
    ensures !store.faulty && k == |ms| ==> Run(store.View(), sum) == ScanMembers(run, acc, ms, dryRun)
  {
    assert ms[..|ms|] == ms;
  }
}
