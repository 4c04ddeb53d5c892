/** The orphan repair of internal/admin/imapimport_repair_orphans.go as a function of
    an error-free store: what one member, one account and a whole run come to. */
module OrphanSpec {
  import opened Options
  import opened Strings

  /** The mailbox attributes that matter. */
  datatype Attr = Inbox | Junk

  datatype Mailbox = Mailbox(id: nat, name: string, attrs: set<Attr>)

  /** One membership: a message is in a mailbox under a UID. */
  datatype Row = Row(mailbox: nat, msg: nat, uid: nat)

  /** store.IMAPImportAccount; tag is ProvenanceMailboxID, 0 when never enabled. */
  datatype Account = Account(id: string, tag: nat)

  /** One principal's mail: mailboxes in the order they are listed, memberships in the
      order they were made, the tracked (account, message) pairs, the recorded
      verdicts, and the next UID of each mailbox. */
  datatype State = State(
    mailboxes: seq<Mailbox>,
    rows: seq<Row>,
    tracked: set<(string, nat)>,
    verdicts: map<nat, string>,
    uidNext: map<nat, nat>,
    nextMailbox: nat)

  datatype Summary = Summary(accounts: nat, members: nat, orphans: nat, junk: nat, inbox: nat, errors: nat)

  datatype Finding = NotOrphan | Filed(junk: bool)

  // -- Reading the store ----------------------------------------------------

  /** The members of a mailbox, in UID order. */
  function Members(rows: seq<Row>, mailbox: nat): (r: seq<Row>)
    ensures forall x :: x in r <==> x in rows && x.mailbox == mailbox
  {
    if rows == [] then []
    else
      var rest, x := Members(rows[..|rows| - 1], mailbox), rows[|rows| - 1];
      if x.mailbox == mailbox then rest + [x] else rest
  }

  /** The mailboxes a message is in. */
  function Boxes(rows: seq<Row>, msg: nat): (r: seq<nat>)
    ensures forall b :: b in r <==> exists x :: x in rows && x.msg == msg && x.mailbox == b
  {
    if rows == [] then []
    else
      var rest, x := Boxes(rows[..|rows| - 1], msg), rows[|rows| - 1];
      if x.msg == msg then rest + [x.mailbox] else rest
  }

  predicate IsOrphan(st: State, acc: Account, msg: nat) {
    Boxes(st.rows, msg) == [acc.tag] && (acc.id, msg) !in st.tracked
  }

  predicate IsSpam(st: State, msg: nat) {
    msg in st.verdicts && EqualFold(st.verdicts[msg], "spam")
  }

  function FirstWith(mbs: seq<Mailbox>, attr: Attr): Option<nat> {
    if mbs == [] then None else if attr in mbs[0].attrs then Some(mbs[0].id) else FirstWith(mbs[1..], attr)
  }

  function FirstNamed(mbs: seq<Mailbox>, name: string): Option<nat> {
    if mbs == [] then None else if EqualFold(mbs[0].name, name) then Some(mbs[0].id) else FirstNamed(mbs[1..], name)
  }

  function NameOf(attr: Attr): string {
    if attr == Junk then "Junk" else "INBOX"
  }

  /** The mailbox that serves as INBOX or Junk, if there is one. */
  function Existing(mbs: seq<Mailbox>, attr: Attr): Option<nat> {
    var byAttr := FirstWith(mbs, attr);
    if byAttr.Some? then byAttr else FirstNamed(mbs, NameOf(attr))
  }

  // -- Writing it -----------------------------------------------------------

  /** Mailboxes are listed by name. */
  function InsertByName(mbs: seq<Mailbox>, mb: Mailbox): seq<Mailbox> {
    if mbs == [] then [mb]
    else if Le(mb.name, mbs[0].name) then [mb] + mbs
    else [mbs[0]] + InsertByName(mbs[1..], mb)
  }

  predicate ByName(mbs: seq<Mailbox>) {
    forall i, j :: 0 <= i < j < |mbs| ==> Le(mbs[i].name, mbs[j].name)
  }

  function CreateMailbox(st: State, name: string, attrs: set<Attr>): State {
    st.(mailboxes := InsertByName(st.mailboxes, Mailbox(st.nextMailbox, name, attrs)),
        nextMailbox := st.nextMailbox + 1)
  }

  function UidNext(st: State, mailbox: nat): nat {
    if mailbox in st.uidNext then st.uidNext[mailbox] else 1
  }

  /** A message that is a member already stays as it is. */
  function AddTo(st: State, msg: nat, mailbox: nat): State {
    if mailbox in Boxes(st.rows, msg) then st
    else
      var uid := UidNext(st, mailbox);
      st.(rows := st.rows + [Row(mailbox, msg, uid)], uidNext := st.uidNext[mailbox := uid + 1])
  }

  /** resolveOrCreateSpecialMailbox. */
  function Resolved(st: State, attr: Attr): (State, nat) {
    var found := Existing(st.mailboxes, attr);
    if found.Some? then (st, found.value)
    else (CreateMailbox(st, NameOf(attr), {attr}), st.nextMailbox)
  }

  function FileInto(st: State, msg: nat, attr: Attr): State {
    var (st', mailbox) := Resolved(st, attr);
    AddTo(st', msg, mailbox)
  }

  /** repairOneIMAPImportOrphan. */
  function FindingFor(st: State, acc: Account, msg: nat): Finding {
    if IsOrphan(st, acc, msg) then Filed(IsSpam(st, msg)) else NotOrphan
  }

  function RepairOne(st: State, acc: Account, msg: nat, dryRun: bool): State {
    if dryRun || !IsOrphan(st, acc, msg) then st
    else FileInto(st, msg, if IsSpam(st, msg) then Junk else Inbox)
  }

  function Tally(sum: Summary, f: Finding): Summary {
    var sum' := sum.(members := sum.members + 1);
    match f
    case NotOrphan => sum'
    case Filed(junk) =>
      if junk then sum'.(orphans := sum.orphans + 1, junk := sum.junk + 1)
      else sum'.(orphans := sum.orphans + 1, inbox := sum.inbox + 1)
  }

  // -- A run ----------------------------------------------------------------

  datatype Run = Run(st: State, sum: Summary)

  function ScanMembers(run: Run, acc: Account, rows: seq<Row>, dryRun: bool): Run {
    if rows == [] then run
    else
      var before := ScanMembers(run, acc, rows[..|rows| - 1], dryRun);
      var msg := rows[|rows| - 1].msg;
      Run(RepairOne(before.st, acc, msg, dryRun), Tally(before.sum, FindingFor(before.st, acc, msg)))
  }

  function ScanAccount(run: Run, acc: Account, dryRun: bool): Run {
    if acc.tag == 0 then run
    else
      var begun := Run(run.st, run.sum.(accounts := run.sum.accounts + 1));
      ScanMembers(begun, acc, Members(run.st.rows, acc.tag), dryRun)
  }

  function ScanAccounts(run: Run, accs: seq<Account>, dryRun: bool): Run {
    if accs == [] then run
    else ScanAccount(ScanAccounts(run, accs[..|accs| - 1], dryRun), accs[|accs| - 1], dryRun)
  }

  const NOTHING: Summary := Summary(0, 0, 0, 0, 0, 0)

  function Repair(st: State, accs: seq<Account>, dryRun: bool): Run {
    ScanAccounts(Run(st, NOTHING), accs, dryRun)
  }

  // -- A well-formed store --------------------------------------------------

  /** UIDs grow within a mailbox and are never reused; a message is in a mailbox once;
      mailboxes are listed by name. */
  predicate WellFormed(st: State) {
    && (forall i, j :: 0 <= i < j < |st.rows| && st.rows[i].mailbox == st.rows[j].mailbox ==>
          st.rows[i].uid < st.rows[j].uid && st.rows[i].msg != st.rows[j].msg)
    && (forall i :: 0 <= i < |st.rows| ==> 0 < st.rows[i].uid < UidNext(st, st.rows[i].mailbox))
    && (forall b :: b in st.uidNext ==> st.uidNext[b] > 0)
    && (forall i :: 0 <= i < |st.mailboxes| ==> 0 < st.mailboxes[i].id < st.nextMailbox)
    && ByName(st.mailboxes)
  }
}
