/** What the dry run promises about the real one, and a second run about the first. */
module OrphanProofs {
  import opened Options
  import opened OrphanSpec
  import opened Strings

  // -- Effects of one step --------------------------------------------------

  lemma BoxesAppend(rows: seq<Row>, x: Row, msg: nat)
    ensures Boxes(rows + [x], msg) == if x.msg == msg then Boxes(rows, msg) + [x.mailbox] else Boxes(rows, msg)
  {
    assert (rows + [x])[..|rows|] == rows;
  }

  lemma MembersAppend(rows: seq<Row>, x: Row, mailbox: nat)
    ensures Members(rows + [x], mailbox) ==
              if x.mailbox == mailbox then Members(rows, mailbox) + [x] else Members(rows, mailbox)
  {
    assert (rows + [x])[..|rows|] == rows;
  }

  /** Adding a message to a mailbox changes that message's boxes and that mailbox only. */
  lemma AddToEffect(st: State, msg: nat, mailbox: nat, m: nat, b: nat)
    ensures var st' := AddTo(st, msg, mailbox);
            && (m != msg ==> Boxes(st'.rows, m) == Boxes(st.rows, m))
            && (mailbox !in Boxes(st.rows, msg) ==> Boxes(st'.rows, msg) == Boxes(st.rows, msg) + [mailbox])
            && (b != mailbox ==> Members(st'.rows, b) == Members(st.rows, b))
            && mailbox in Boxes(st'.rows, msg)
  {
    var x := Row(mailbox, msg, UidNext(st, mailbox));
    BoxesAppend(st.rows, x, m);
    BoxesAppend(st.rows, x, msg);
    MembersAppend(st.rows, x, b);
  }

  lemma {:induction false} FirstWithInserted(mbs: seq<Mailbox>, mb: Mailbox, attr: Attr)
    ensures attr !in mb.attrs ==> FirstWith(InsertByName(mbs, mb), attr) == FirstWith(mbs, attr)
    ensures attr in mb.attrs && FirstWith(mbs, attr).None? ==> FirstWith(InsertByName(mbs, mb), attr) == Some(mb.id)
  {
    if mbs != [] {
      FirstWithInserted(mbs[1..], mb, attr);
      assert ([mb] + mbs)[1..] == mbs;
      assert ([mbs[0]] + InsertByName(mbs[1..], mb))[1..] == InsertByName(mbs[1..], mb);
    }
  }

  lemma {:induction false} FirstNamedInserted(mbs: seq<Mailbox>, mb: Mailbox, name: string)
    requires !EqualFold(mb.name, name)
    ensures FirstNamed(InsertByName(mbs, mb), name) == FirstNamed(mbs, name)
  {
    hide EqualFold;
    if mbs != [] {
      FirstNamedInserted(mbs[1..], mb, name);
      assert ([mb] + mbs)[1..] == mbs;
      assert ([mbs[0]] + InsertByName(mbs[1..], mb))[1..] == InsertByName(mbs[1..], mb);
    }
  }

  lemma NamesApart()
    ensures !EqualFold(NameOf(Junk), NameOf(Inbox)) && !EqualFold(NameOf(Inbox), NameOf(Junk))
  {
    assert |FoldAll("INBOX")| == 5;
  }

  /** Resolving finds the same mailbox ever after, and leaves the other role's alone. */
  lemma ResolvedEffect(st: State, attr: Attr, other: Attr)
    ensures var (st', mailbox) := Resolved(st, attr);
            && Existing(st'.mailboxes, attr) == Some(mailbox)
            && (other != attr ==> Existing(st'.mailboxes, other) == Existing(st.mailboxes, other))
            && st'.rows == st.rows && st'.tracked == st.tracked && st'.verdicts == st.verdicts
            && st'.uidNext == st.uidNext && st'.nextMailbox >= st.nextMailbox
            && (Existing(st.mailboxes, attr).None? ==> mailbox == st.nextMailbox)
  {
    hide EqualFold, NameOf, InsertByName;
    var mb := Mailbox(st.nextMailbox, NameOf(attr), {attr});
    FirstWithInserted(st.mailboxes, mb, attr);
    FirstWithInserted(st.mailboxes, mb, other);
    NamesApart();
    if other != attr {
      FirstNamedInserted(st.mailboxes, mb, NameOf(other));
    }
  }

  // -- How a store grows ----------------------------------------------------

  /** Where an orphan is filed. */
  function TargetOf(st: State, msg: nat): Attr {
    if IsSpam(st, msg) then Junk else Inbox
  }

  /** An orphan whose label is itself the mailbox it would be filed into. */
  predicate SelfFiled(st: State, acc: Account, msg: nat) {
    IsOrphan(st, acc, msg) && Existing(st.mailboxes, TargetOf(st, msg)) == Some(acc.tag)
  }

  /** Memberships are added only to messages that had one; a role keeps its mailbox, and
      one without gets a new one. */
  ghost predicate Grown(st: State, st': State) {
    && st'.tracked == st.tracked && st'.verdicts == st.verdicts
    && st.nextMailbox <= st'.nextMailbox
    && st.rows <= st'.rows
    && (forall m :: |Boxes(st.rows, m)| != 1 ==> Boxes(st'.rows, m) == Boxes(st.rows, m))
    && (forall attr: Attr :: Existing(st.mailboxes, attr).Some? ==>
          Existing(st'.mailboxes, attr) == Existing(st.mailboxes, attr))
    && (forall attr: Attr :: Existing(st.mailboxes, attr).None? && Existing(st'.mailboxes, attr).Some? ==>
          Existing(st'.mailboxes, attr).value >= st.nextMailbox)
  }

  lemma GrownOn(st: State, st': State, st'': State)
    requires Grown(st, st') && Grown(st', st'')
    ensures Grown(st, st'')
  {
    hide Existing, Boxes;
  }

  lemma FiledGrows(st: State, msg: nat, attr: Attr)
    requires |Boxes(st.rows, msg)| == 1
    ensures Grown(st, FileInto(st, msg, attr))
  {
    hide Existing, Boxes;
    var (st1, mailbox) := Resolved(st, attr);
    ResolvedEffect(st, attr, attr);
    var st' := AddTo(st1, msg, mailbox);
    forall m | |Boxes(st.rows, m)| != 1 ensures Boxes(st'.rows, m) == Boxes(st.rows, m) {
      AddToEffect(st1, msg, mailbox, m, 0);
    }
    forall a: Attr ensures a != attr ==> Existing(st'.mailboxes, a) == Existing(st.mailboxes, a) {
      ResolvedEffect(st, attr, a);
    }
  }

  lemma OneGrows(st: State, acc: Account, msg: nat)
    ensures Grown(st, RepairOne(st, acc, msg, false))
  {
    hide Existing, Boxes, FileInto;
    if IsOrphan(st, acc, msg) {
      FiledGrows(st, msg, TargetOf(st, msg));
    }
  }

  lemma {:induction false} ScanGrows(run: Run, acc: Account, rows: seq<Row>)
    ensures Grown(run.st, ScanMembers(run, acc, rows, false).st)
  {
    hide Grown, RepairOne, FindingFor;
    if rows == [] {
      assert Grown(run.st, run.st) by {
        GrownSame(run.st);
      }
    } else {
      var before := ScanMembers(run, acc, rows[..|rows| - 1], false);
      ScanGrows(run, acc, rows[..|rows| - 1]);
      OneGrows(before.st, acc, rows[|rows| - 1].msg);
      GrownOn(run.st, before.st, RepairOne(before.st, acc, rows[|rows| - 1].msg, false));
    }
  }

  lemma GrownSame(st: State)
    ensures Grown(st, st)
  {
  }

  lemma {:induction false} BoxesSplit(rows: seq<Row>, more: seq<Row>, msg: nat)
    ensures Boxes(rows + more, msg) == Boxes(rows, msg) + Boxes(more, msg)
  {
    if more == [] {
      assert rows + more == rows;
    } else {
      var some, x := more[..|more| - 1], more[|more| - 1];
      BoxesSplit(rows, some, msg);
      assert rows + more == (rows + some) + [x] && more == some + [x];
      BoxesAppend(rows + some, x, msg);
      BoxesAppend(some, x, msg);
    }
  }

  lemma SplitOn(a: seq<Row>, b: seq<Row>, x: Row)
    ensures a + b + [x] == a + (b + [x])
  {
  }

  lemma {:induction false} MembersSplit(rows: seq<Row>, more: seq<Row>, mailbox: nat)
    ensures Members(rows + more, mailbox) == Members(rows, mailbox) + Members(more, mailbox)
  {
    if more == [] {
      assert rows + more == rows;
    } else {
      var some, x := more[..|more| - 1], more[|more| - 1];
      MembersSplit(rows, some, mailbox);
      assert rows + more == (rows + some) + [x] && more == some + [x];
      MembersAppend(rows + some, x, mailbox);
      MembersAppend(some, x, mailbox);
      SplitOn(Members(rows, mailbox), Members(some, mailbox), x);
    }
  }

  /** What is an orphan later was one before. */
  lemma OrphanBefore(st: State, st': State, acc: Account, msg: nat)
    requires Grown(st, st') && IsOrphan(st', acc, msg)
    ensures IsOrphan(st, acc, msg)
  {
    hide Existing;
    assert st'.rows == st.rows + st'.rows[|st.rows|..];
    BoxesSplit(st.rows, st'.rows[|st.rows|..], msg);
  }

  /** An orphan is a member of its label. */
  lemma OrphanIsMember(st: State, acc: Account, msg: nat) returns (x: Row)
    requires IsOrphan(st, acc, msg)
    ensures x in Members(st.rows, acc.tag) && x.msg == msg && x in st.rows
  {
    assert acc.tag in Boxes(st.rows, msg);
    x :| x in st.rows && x.msg == msg && x.mailbox == acc.tag;
  }

  // -- What a run files -----------------------------------------------------

  /** An orphan of the account that a run will file. */
  predicate ToFile(st: State, acc: Account, msg: nat) {
    acc.tag != 0 && IsOrphan(st, acc, msg) && !SelfFiled(st, acc, msg)
  }

  predicate FiledBy(st: State, accs: seq<Account>, msg: nat) {
    exists acc :: acc in accs && ToFile(st, acc, msg)
  }

  /** The mailbox that serves the message's role, or one made since. */
  predicate IsTarget(st: State, msg: nat, mailbox: nat) {
    var found := Existing(st.mailboxes, TargetOf(st, msg));
    if found.Some? then mailbox == found.value else mailbox >= st.nextMailbox
  }

  /** The message is where it was and, if filed, in the mailbox that serves its role as
      well. */
  predicate Placed(st0: State, st: State, msg: nat, filed: bool) {
    var was, now := Boxes(st0.rows, msg), Boxes(st.rows, msg);
    if filed then
      && |now| == |was| + 1 && now[..|was|] == was
      && Existing(st.mailboxes, TargetOf(st0, msg)) == Some(now[|was|])
    else now == was
  }

  lemma TargetFrom(st0: State, st: State, msg: nat, mailbox: nat)
    requires Grown(st0, st) && Existing(st.mailboxes, TargetOf(st0, msg)) == Some(mailbox)
    ensures IsTarget(st0, msg, mailbox)
  {
    hide Existing, Boxes, TargetOf;
  }

  /** The labels are mailboxes that exist. */
  predicate LabelsMade(st: State, accs: seq<Account>) {
    forall acc :: acc in accs ==> acc.tag < st.nextMailbox
  }

  lemma ResolvedTarget(st0: State, st: State, msg: nat)
    requires Grown(st0, st)
    ensures IsTarget(st0, msg, Resolved(st, TargetOf(st, msg)).1) && TargetOf(st, msg) == TargetOf(st0, msg)
  {
    hide Existing, Boxes, InsertByName, EqualFold;
  }

  /** One member: it is filed now if it has to be and was not yet. */
  lemma PlacedOne(st0: State, st: State, acc: Account, msg: nat, filed: bool)
    requires Grown(st0, st) && acc.tag != 0 && acc.tag < st0.nextMailbox && Placed(st0, st, msg, filed)
    requires filed ==> |Boxes(st0.rows, msg)| == 1
    ensures Placed(st0, RepairOne(st, acc, msg, false), msg, filed || ToFile(st0, acc, msg))
  {
    hide Existing, Grown, Boxes, Resolved, IsSpam, TargetOf;
    SameTracked(st0, st);
    if IsOrphan(st, acc, msg) {
      ResolvedTarget(st0, st, msg);
      var (st1, mailbox) := Resolved(st, TargetOf(st, msg));
      ResolvedRows(st, TargetOf(st, msg));
      ResolvedEffect(st, TargetOf(st, msg), TargetOf(st, msg));
      AddToEffect(st1, msg, mailbox, msg, 0);
      assert RepairOne(st, acc, msg, false) == AddTo(st1, msg, mailbox) by {
        FilesTarget(st, acc, msg);
      }
    }
  }

  lemma SameTracked(st0: State, st: State)
    requires Grown(st0, st)
    ensures st.tracked == st0.tracked
  {
  }

  lemma ResolvedRows(st: State, attr: Attr)
    ensures Resolved(st, attr).0.rows == st.rows
  {
  }

  lemma FilesTarget(st: State, acc: Account, msg: nat)
    requires IsOrphan(st, acc, msg)
    ensures var (st1, mailbox) := Resolved(st, TargetOf(st, msg));
            RepairOne(st, acc, msg, false) == AddTo(st1, msg, mailbox)
  {
    hide IsOrphan, Resolved;
  }

  /** Repairing one message leaves the others where they are. */
  lemma OthersStay(st: State, acc: Account, msg: nat, other: nat)
    requires other != msg
    ensures Boxes(RepairOne(st, acc, msg, false).rows, other) == Boxes(st.rows, other)
  {
    hide Boxes, Resolved, TargetOf;
    if IsOrphan(st, acc, msg) {
      FilesTarget(st, acc, msg);
      var (st1, mailbox) := Resolved(st, TargetOf(st, msg));
      ResolvedRows(st, TargetOf(st, msg));
      AddToEffect(st1, msg, mailbox, other, 0);
    }
  }

  function Msgs(rows: seq<Row>): set<nat> {
    set x | x in rows :: x.msg
  }

  lemma FiledHadOne(st: State, accs: seq<Account>, msg: nat)
    requires FiledBy(st, accs, msg)
    ensures |Boxes(st.rows, msg)| == 1
  {
  }

  /** The members scanned so far. */
  lemma {:induction false} ScanPlaces(st0: State, run: Run, accs: seq<Account>, acc: Account, rows: seq<Row>, m: nat)
    requires Grown(st0, run.st) && acc.tag != 0 && acc.tag < st0.nextMailbox
    requires Placed(st0, run.st, m, FiledBy(st0, accs, m))
    ensures Placed(st0, ScanMembers(run, acc, rows, false).st, m,
                   FiledBy(st0, accs, m) || (m in Msgs(rows) && ToFile(st0, acc, m)))
  {
    hide Grown, Placed, ToFile, RepairOne, FindingFor, FiledBy;
    if rows != [] {
      var some, x := rows[..|rows| - 1], rows[|rows| - 1];
      var before := ScanMembers(run, acc, some, false);
      ScanPlaces(st0, run, accs, acc, some, m);
      ScanGrows(run, acc, some);
      GrownOn(st0, run.st, before.st);
      assert Msgs(rows) == Msgs(some) + {x.msg};
      if x.msg == m {
        if FiledBy(st0, accs, m) {
          FiledHadOne(st0, accs, m);
        }
        if ToFile(st0, acc, m) {
          ToFileHadOne(st0, acc, m);
        }
        PlacedOne(st0, before.st, acc, m, FiledBy(st0, accs, m) || (m in Msgs(some) && ToFile(st0, acc, m)));
      } else {
        OthersStay(before.st, acc, x.msg, m);
        OneGrows(before.st, acc, x.msg);
        PlacedSame(st0, before.st, RepairOne(before.st, acc, x.msg, false), m,
                   FiledBy(st0, accs, m) || (m in Msgs(some) && ToFile(st0, acc, m)));
      }
    }
  }

  lemma ToFileHadOne(st: State, acc: Account, msg: nat)
    requires ToFile(st, acc, msg)
    ensures |Boxes(st.rows, msg)| == 1
  {
  }

  lemma PlacedSame(st0: State, st: State, st': State, m: nat, filed: bool)
    requires Placed(st0, st, m, filed) && Boxes(st'.rows, m) == Boxes(st.rows, m) && Grown(st, st')
    ensures Placed(st0, st', m, filed)
  {
    hide Existing, Boxes, TargetOf;
  }

  /** The store after some of the accounts: exactly what they had to file is filed. */
  ghost predicate Repaired(st0: State, st: State, accs: seq<Account>) {
    Grown(st0, st) && forall m :: Placed(st0, st, m, FiledBy(st0, accs, m))
  }

  lemma OneAccount(st0: State, run: Run, accs: seq<Account>, acc: Account)
    requires Repaired(st0, run.st, accs) && acc.tag < st0.nextMailbox
    ensures Repaired(st0, ScanAccount(run, acc, false).st, accs + [acc])
  {
    hide Grown, Placed, ToFile, ScanMembers;
    var rows := Members(run.st.rows, acc.tag);
    var begun := Run(run.st, run.sum.(accounts := run.sum.accounts + 1));
    var after := ScanAccount(run, acc, false);
    if acc.tag != 0 {
      ScanGrows(begun, acc, rows);
      GrownOn(st0, run.st, after.st);
    }
    forall m ensures Placed(st0, after.st, m, FiledBy(st0, accs + [acc], m)) {
      FiledByOn(st0, accs, acc, m);
      if acc.tag != 0 {
        ScanPlaces(st0, begun, accs, acc, rows, m);
        if ToFile(st0, acc, m) {
          WillBeScanned(st0, run.st, acc, m);
        }
      } else {
        NothingToFile(st0, acc, m);
      }
    }
  }

  lemma FiledByOn(st: State, accs: seq<Account>, acc: Account, m: nat)
    ensures FiledBy(st, accs + [acc], m) <==> FiledBy(st, accs, m) || ToFile(st, acc, m)
  {
    hide ToFile;
    if ToFile(st, acc, m) {
      assert acc in accs + [acc];
    }
    if FiledBy(st, accs, m) {
      var a :| a in accs && ToFile(st, a, m);
      assert a in accs + [acc];
    }
  }

  lemma WillBeScanned(st0: State, st: State, acc: Account, m: nat)
    requires Grown(st0, st) && ToFile(st0, acc, m)
    ensures m in Msgs(Members(st.rows, acc.tag))
  {
    hide Existing, Boxes;
    var x := OrphanIsMember(st0, acc, m);
    assert x in st.rows;
    assert x in Members(st.rows, acc.tag);
  }

  lemma NothingToFile(st: State, acc: Account, m: nat)
    requires acc.tag == 0
    ensures !ToFile(st, acc, m)
  {
  }

  lemma {:induction false} AllAccounts(st0: State, accs: seq<Account>)
    requires LabelsMade(st0, accs)
    ensures Repaired(st0, Repair(st0, accs, false).st, accs)
  {
    hide Grown, ScanAccount;
    if accs == [] {
      GrownSame(st0);
      forall m ensures Placed(st0, st0, m, FiledBy(st0, [], m)) {
        assert !FiledBy(st0, [], m);
      }
    } else {
      var some, acc := accs[..|accs| - 1], accs[|accs| - 1];
      assert accs == some + [acc];
      AllAccounts(st0, some);
      OneAccount(st0, Repair(st0, some, false), some, acc);
    }
  }

  // -- The second run -------------------------------------------------------

  /** After a run the orphans left are those that are filed where they are. */
  lemma OrphansLeft(st0: State, st: State, accs: seq<Account>, acc: Account, m: nat)
    requires Repaired(st0, st, accs) && acc in accs && acc.tag != 0
    ensures IsOrphan(st, acc, m) <==> SelfFiled(st0, acc, m)
    ensures IsOrphan(st, acc, m) ==> SelfFiled(st, acc, m)
  {
    hide Existing, Boxes, IsSpam;
    assert Placed(st0, st, m, FiledBy(st0, accs, m));
    if IsOrphan(st, acc, m) {
      OrphanBefore(st0, st, acc, m);
      assert ToFile(st0, acc, m) ==> FiledBy(st0, accs, m);
      SameTarget(st0, st, m);
    }
  }

  lemma SameTarget(st0: State, st: State, m: nat)
    requires Grown(st0, st)
    ensures TargetOf(st, m) == TargetOf(st0, m)
  {
    hide Existing, Boxes, EqualFold;
  }

  lemma SelfFiledStays(st: State, acc: Account, msg: nat)
    requires SelfFiled(st, acc, msg)
    ensures RepairOne(st, acc, msg, false) == st
  {
    hide Existing, Boxes, EqualFold;
  }

  lemma {:induction false} DryScan(run: Run, acc: Account, rows: seq<Row>)
    ensures ScanMembers(run, acc, rows, true).st == run.st
    ensures ScanMembers(run, acc, rows, true).sum.orphans >= run.sum.orphans
    ensures ScanMembers(run, acc, rows, true).sum.orphans == run.sum.orphans <==>
              forall x :: x in rows ==> !IsOrphan(run.st, acc, x.msg)
  {
    hide IsOrphan, IsSpam;
    if rows != [] {
      DryScan(run, acc, rows[..|rows| - 1]);
    }
  }

  lemma {:induction false} StillScan(run: Run, acc: Account, rows: seq<Row>)
    requires forall x :: x in rows && IsOrphan(run.st, acc, x.msg) ==> SelfFiled(run.st, acc, x.msg)
    ensures ScanMembers(run, acc, rows, false) == ScanMembers(run, acc, rows, true)
  {
    hide IsOrphan, SelfFiled, FileInto, IsSpam;
    if rows != [] {
      var some, x := rows[..|rows| - 1], rows[|rows| - 1];
      StillScan(run, acc, some);
      DryScan(run, acc, some);
      if IsOrphan(run.st, acc, x.msg) {
        SelfFiledStays(run.st, acc, x.msg);
      }
    }
  }

  /** Some member of some label is an orphan. */
  ghost predicate HasOrphan(st: State, accs: seq<Account>) {
    exists acc, x :: acc in accs && acc.tag != 0 && x in Members(st.rows, acc.tag) && IsOrphan(st, acc, x.msg)
  }

  lemma {:induction false} DryRun(st: State, accs: seq<Account>)
    ensures Repair(st, accs, true).st == st
    ensures Repair(st, accs, true).sum.orphans == 0 <==> !HasOrphan(st, accs)
  {
    hide IsOrphan, Members, ScanMembers;
    if accs != [] {
      var some, acc := accs[..|accs| - 1], accs[|accs| - 1];
      assert accs == some + [acc];
      DryRun(st, some);
      var run := Repair(st, some, true);
      DryScan(Run(run.st, run.sum.(accounts := run.sum.accounts + 1)), acc, Members(st.rows, acc.tag));
    }
  }

  /** If all orphans are filed where they are, the real run does what the dry run does. */
  lemma {:induction false} StillRun(st: State, accs: seq<Account>)
    requires forall acc, x :: acc in accs && acc.tag != 0 && x in Members(st.rows, acc.tag) ==>
               IsOrphan(st, acc, x.msg) ==> SelfFiled(st, acc, x.msg)
    ensures Repair(st, accs, false) == Repair(st, accs, true)
  {
    hide IsOrphan, SelfFiled, Members, ScanMembers;
    if accs != [] {
      var some, acc := accs[..|accs| - 1], accs[|accs| - 1];
      StillRun(st, some);
      DryRun(st, some);
      var run := Repair(st, some, true);
      if acc.tag != 0 {
        StillScan(Run(run.st, run.sum.(accounts := run.sum.accounts + 1)), acc, Members(st.rows, acc.tag));
      }
    }
  }

  /** Some orphan has its own label for its target. */
  ghost predicate HasSelfFiled(st: State, accs: seq<Account>) {
    exists acc, x :: acc in accs && acc.tag != 0 && x in Members(st.rows, acc.tag) && SelfFiled(st, acc, x.msg)
  }

  lemma OrphansLeftIff(st0: State, st: State, accs: seq<Account>)
    requires Repaired(st0, st, accs)
    ensures HasOrphan(st, accs) <==> HasSelfFiled(st0, accs)
  {
    hide Grown, Placed, Existing, Boxes, IsSpam, Members;
    if HasOrphan(st, accs) {
      var acc, x :| acc in accs && acc.tag != 0 && x in Members(st.rows, acc.tag) && IsOrphan(st, acc, x.msg);
      OrphansLeft(st0, st, accs, acc, x.msg);
      var y := OrphanIsMember(st0, acc, x.msg);
      assert SelfFiled(st0, acc, y.msg);
    }
    if HasSelfFiled(st0, accs) {
      var acc, x :| acc in accs && acc.tag != 0 && x in Members(st0.rows, acc.tag) && SelfFiled(st0, acc, x.msg);
      OrphansLeft(st0, st, accs, acc, x.msg);
      var y := OrphanIsMember(st, acc, x.msg);
      assert IsOrphan(st, acc, y.msg);
    }
  }

  /** A second real run changes nothing, and it finds no orphan if and only if no orphan
      had its own label for its target to begin with. */
  lemma SecondRunFindsNoneIff(st: State, accs: seq<Account>)
    requires LabelsMade(st, accs)
    ensures var st' := Repair(st, accs, false).st;
            && Repair(st', accs, false).st == st'
            && (Repair(st', accs, false).sum.orphans == 0 <==> !HasSelfFiled(st, accs))
  {
    hide IsOrphan, SelfFiled, Members, Repaired, ScanAccounts;
    AllAccounts(st, accs);
    var st' := Repair(st, accs, false).st;
    OrphansLeftIff(st, st', accs);
    forall acc, x | acc in accs && acc.tag != 0 && x in Members(st'.rows, acc.tag) && IsOrphan(st', acc, x.msg)
      ensures SelfFiled(st', acc, x.msg)
    {
      OrphansLeft(st, st', accs, acc, x.msg);
    }
    StillRun(st', accs);
    DryRun(st', accs);
  }

  // -- The dry run ----------------------------------------------------------

  /** A message in one mailbox is there once. */
  lemma {:induction false} MemberOnce(rows: seq<Row>, mailbox: nat, m: nat, i: nat, j: nat)
    requires |Boxes(rows, m)| == 1 && i < j < |Members(rows, mailbox)|
    ensures Members(rows, mailbox)[i].msg != m || Members(rows, mailbox)[j].msg != m
  {
    var some, x := rows[..|rows| - 1], rows[|rows| - 1];
    var ms := Members(some, mailbox);
    if x.msg != m && j < |ms| {
      MemberOnce(some, mailbox, m, i, j);
    } else if i < |ms| {
      HasBox(some, ms[i]);
    }
  }

  lemma HasBox(rows: seq<Row>, x: Row)
    requires x in rows
    ensures x.mailbox in Boxes(rows, x.msg)
  {
  }

  lemma {:induction false} Untouched(run: Run, acc: Account, rows: seq<Row>, m: nat)
    requires m !in Msgs(rows)
    ensures Boxes(ScanMembers(run, acc, rows, false).st.rows, m) == Boxes(run.st.rows, m)
  {
    hide Boxes, RepairOne, FindingFor;
    if rows != [] {
      var some, x := rows[..|rows| - 1], rows[|rows| - 1];
      assert x in rows && Msgs(some) <= Msgs(rows);
      Untouched(run, acc, some, m);
      OthersStay(ScanMembers(run, acc, some, false).st, acc, x.msg, m);
    }
  }

  /** Until a member is scanned it is an orphan just if it was one at the start. */
  lemma FindingStays(run: Run, acc: Account, ms: seq<Row>, k: nat)
    requires ms == Members(run.st.rows, acc.tag) && k < |ms|
    ensures FindingFor(ScanMembers(run, acc, ms[..k], false).st, acc, ms[k].msg) == FindingFor(run.st, acc, ms[k].msg)
  {
    hide Boxes, Members, EqualFold, Existing;
    var before, m := ScanMembers(run, acc, ms[..k], false), ms[k].msg;
    ScanGrows(run, acc, ms[..k]);
    if IsOrphan(before.st, acc, m) {
      OrphanBefore(run.st, before.st, acc, m);
    } else if IsOrphan(run.st, acc, m) {
      forall i | 0 <= i < k ensures ms[i].msg != m {
        MemberOnce(run.st.rows, acc.tag, m, i, k);
      }
      Untouched(run, acc, ms[..k], m);
    }
  }

  /** For one account the dry run always counts what the real one does. */
  lemma {:induction false} OneLabelPredicts(run: Run, acc: Account, ms: seq<Row>, k: nat)
    requires ms == Members(run.st.rows, acc.tag) && k <= |ms|
    ensures ScanMembers(run, acc, ms[..k], false).sum == ScanMembers(run, acc, ms[..k], true).sum
  {
    hide Members, FindingFor, RepairOne;
    if k > 0 {
      OneLabelPredicts(run, acc, ms, k - 1);
      FindingStays(run, acc, ms, k - 1);
      DryScan(run, acc, ms[..k - 1]);
      assert ms[..k][..k - 1] == ms[..k - 1];
    }
  }

  lemma AccountPredicts(run: Run, acc: Account)
    ensures ScanAccount(run, acc, false).sum == ScanAccount(run, acc, true).sum
  {
    hide Members, ScanMembers;
    var ms := Members(run.st.rows, acc.tag);
    OneLabelPredicts(Run(run.st, run.sum.(accounts := run.sum.accounts + 1)), acc, ms, |ms|);
    assert ms[..|ms|] == ms;
  }

  /** The real run scans no fewer members and finds no more orphans than the dry run; */
  predicate Behind(actual: Summary, dry: Summary) {
    actual.members >= dry.members && actual.orphans <= dry.orphans
  }

  /** and more members or fewer orphans, once the two differ. */
  predicate Differs(actual: Summary, dry: Summary) {
    actual.members > dry.members || actual.orphans < dry.orphans
  }

  /** An orphan among the rows is one no more. */
  ghost predicate LostOne(st0: State, st: State, acc: Account, rows: seq<Row>) {
    exists x :: x in rows && IsOrphan(st0, acc, x.msg) && !IsOrphan(st, acc, x.msg)
  }

  /** Both scan the same members, some of which may be orphans no more. */
  lemma {:induction false} CompareScans(st0: State, st: State, acc: Account, rows: seq<Row>, actual: Summary,
                                        dry: Summary)
    requires Grown(st0, st) && Behind(actual, dry)
    ensures var actual' := ScanMembers(Run(st, actual), acc, rows, true).sum;
            var dry' := ScanMembers(Run(st0, dry), acc, rows, true).sum;
            && Behind(actual', dry')
            && (Differs(actual, dry) ==> Differs(actual', dry'))
            && (LostOne(st0, st, acc, rows) ==> Differs(actual', dry'))
            && (actual == dry && !LostOne(st0, st, acc, rows) ==> actual' == dry')
  {
    hide Grown, IsOrphan, IsSpam;
    if rows != [] {
      var some, x := rows[..|rows| - 1], rows[|rows| - 1];
      CompareScans(st0, st, acc, some, actual, dry);
      DryScan(Run(st, actual), acc, some);
      DryScan(Run(st0, dry), acc, some);
      SameSpam(st0, st, x.msg);
      if IsOrphan(st, acc, x.msg) {
        OrphanBefore(st0, st, acc, x.msg);
      }
    }
  }

  lemma SameSpam(st0: State, st: State, m: nat)
    requires Grown(st0, st)
    ensures IsSpam(st, m) == IsSpam(st0, m)
  {
    hide Existing, Boxes, EqualFold;
  }

  /** Members that are no orphans only add to the count. */
  lemma {:induction false} MoreMembers(run: Run, acc: Account, rows: seq<Row>, more: seq<Row>)
    requires forall x :: x in more ==> !IsOrphan(run.st, acc, x.msg)
    ensures var sum := ScanMembers(run, acc, rows, true).sum;
            ScanMembers(run, acc, rows + more, true).sum == sum.(members := sum.members + |more|)
  {
    hide IsOrphan, IsSpam;
    if more == [] {
      assert rows + more == rows;
    } else {
      MoreMembers(run, acc, rows, more[..|more| - 1]);
      DryScan(run, acc, rows + more[..|more| - 1]);
      assert (rows + more)[..|rows + more| - 1] == rows + more[..|more| - 1];
    }
  }

  /** The real run scans more members, none of the further ones an orphan. */
  lemma CompareMore(st0: State, st: State, acc: Account, rows: seq<Row>, more: seq<Row>, actual: Summary, dry: Summary)
    requires Grown(st0, st) && Behind(actual, dry) && forall x :: x in more ==> !IsOrphan(st, acc, x.msg)
    ensures var actual' := ScanMembers(Run(st, actual), acc, rows + more, true).sum;
            var dry' := ScanMembers(Run(st0, dry), acc, rows, true).sum;
            && Behind(actual', dry')
            && (Differs(actual, dry) || LostOne(st0, st, acc, rows) || more != [] ==> Differs(actual', dry'))
            && (actual == dry && !LostOne(st0, st, acc, rows) && more == [] ==> actual' == dry')
  {
    hide Grown, LostOne, ScanMembers, IsOrphan;
    CompareScans(st0, st, acc, rows, actual, dry);
    MoreMembers(Run(st, actual), acc, rows, more);
  }

  /** A message that earlier accounts file is an orphan of a later one as well. */
  ghost predicate Shares(st: State, accs: seq<Account>, acc: Account) {
    exists m :: FiledBy(st, accs, m) && IsOrphan(st, acc, m)
  }

  /** A message that earlier accounts file goes into a later one's label. */
  ghost predicate Receives(st: State, accs: seq<Account>, acc: Account) {
    exists m :: FiledBy(st, accs, m) && Existing(st.mailboxes, TargetOf(st, m)) == Some(acc.tag)
  }

  /** The memberships added to the label. */
  function Added(st0: State, st: State, tag: nat): seq<Row>
    requires |st0.rows| <= |st.rows|
  {
    Members(st.rows[|st0.rows|..], tag)
  }

  /** The boxes a message has gained: its target, if it was filed. */
  lemma Gained(st0: State, st: State, accs: seq<Account>, m: nat)
    requires Repaired(st0, st, accs)
    ensures st0.rows <= st.rows
    ensures var more := Boxes(st.rows[|st0.rows|..], m);
            if FiledBy(st0, accs, m) then |more| == 1 && IsTarget(st0, m, more[0]) else more == []
  {
    hide Existing, Boxes, FiledBy, TargetOf;
    assert Placed(st0, st, m, FiledBy(st0, accs, m));
    assert st.rows == st0.rows + st.rows[|st0.rows|..];
    BoxesSplit(st0.rows, st.rows[|st0.rows|..], m);
    if FiledBy(st0, accs, m) {
      TargetFrom(st0, st, m, Boxes(st.rows, m)[|Boxes(st0.rows, m)|]);
    }
  }

  /** Whatever was added to the label was filed there, and is no orphan. */
  lemma AddedWasFiled(st0: State, st: State, accs: seq<Account>, acc: Account, x: Row)
    requires Repaired(st0, st, accs) && acc.tag < st0.nextMailbox && st0.rows <= st.rows && x in Added(st0, st, acc.tag)
    ensures FiledBy(st0, accs, x.msg) && Existing(st0.mailboxes, TargetOf(st0, x.msg)) == Some(acc.tag)
    ensures !IsOrphan(st, acc, x.msg)
  {
    hide Existing, FiledBy, TargetOf, Repaired, IsOrphan, Boxes, Added;
    AddedRow(st0, st, acc.tag, x);
    Gained(st0, st, accs, x.msg);
    FiledIsNoOrphan(st0, st, accs, acc, x.msg);
  }

  lemma AddedRow(st0: State, st: State, tag: nat, x: Row)
    requires |st0.rows| <= |st.rows| && x in Added(st0, st, tag)
    ensures tag in Boxes(st.rows[|st0.rows|..], x.msg)
  {
    HasBox(st.rows[|st0.rows|..], x);
  }

  lemma FiledIsAdded(st0: State, st: State, accs: seq<Account>, acc: Account, m: nat)
    requires Repaired(st0, st, accs) && st0.rows <= st.rows
    requires FiledBy(st0, accs, m) && Existing(st0.mailboxes, TargetOf(st0, m)) == Some(acc.tag)
    ensures Added(st0, st, acc.tag) != []
  {
    Gained(st0, st, accs, m);
    hide Existing, FiledBy, TargetOf, Repaired;
    var more := st.rows[|st0.rows|..];
    assert acc.tag in Boxes(more, m);
    var x :| x in more && x.msg == m && x.mailbox == acc.tag;
    assert x in Added(st0, st, acc.tag);
  }

  lemma AddedIff(st0: State, st: State, accs: seq<Account>, acc: Account)
    requires Repaired(st0, st, accs) && acc.tag < st0.nextMailbox && st0.rows <= st.rows
    ensures Added(st0, st, acc.tag) != [] <==> Receives(st0, accs, acc)
    ensures forall x :: x in Added(st0, st, acc.tag) ==> !IsOrphan(st, acc, x.msg)
  {
    hide Existing, FiledBy, TargetOf, Repaired, IsOrphan, Added;
    var added := Added(st0, st, acc.tag);
    forall x | x in added ensures !IsOrphan(st, acc, x.msg) {
      AddedWasFiled(st0, st, accs, acc, x);
    }
    if added != [] {
      AddedWasFiled(st0, st, accs, acc, added[0]);
    }
    if Receives(st0, accs, acc) {
      var m :| FiledBy(st0, accs, m) && Existing(st0.mailboxes, TargetOf(st0, m)) == Some(acc.tag);
      FiledIsAdded(st0, st, accs, acc, m);
    }
  }

  lemma FiledIsNoOrphan(st0: State, st: State, accs: seq<Account>, acc: Account, m: nat)
    requires Repaired(st0, st, accs) && FiledBy(st0, accs, m)
    ensures !IsOrphan(st, acc, m)
  {
    hide Existing, Boxes, TargetOf, IsTarget;
    assert Placed(st0, st, m, true);
    FiledHadOne(st0, accs, m);
  }

  /** An orphan of the account is one no more just if it was filed for an earlier one. */
  lemma LostIff(st0: State, st: State, accs: seq<Account>, acc: Account)
    requires Repaired(st0, st, accs)
    ensures LostOne(st0, st, acc, Members(st0.rows, acc.tag)) <==> Shares(st0, accs, acc)
  {
    hide Existing, Boxes, TargetOf, IsTarget, FiledBy, Members;
    forall x | x in Members(st0.rows, acc.tag) && IsOrphan(st0, acc, x.msg) && !IsOrphan(st, acc, x.msg)
      ensures FiledBy(st0, accs, x.msg)
    {
      assert Placed(st0, st, x.msg, FiledBy(st0, accs, x.msg));
    }
    forall m | FiledBy(st0, accs, m) && IsOrphan(st0, acc, m)
      ensures LostOne(st0, st, acc, Members(st0.rows, acc.tag))
    {
      var x := OrphanIsMember(st0, acc, m);
      FiledIsNoOrphan(st0, st, accs, acc, m);
      assert IsOrphan(st0, acc, x.msg) && !IsOrphan(st, acc, x.msg);
    }
  }

  /** What earlier accounts file concerns a later one. */
  ghost predicate Concerns(st: State, accs: seq<Account>, acc: Account) {
    Shares(st, accs, acc) || Receives(st, accs, acc)
  }

  /** One account more: the two differ from here on just if they did before or what was
      filed concerns it. */
  lemma CompareAccount(st0: State, st: State, accs: seq<Account>, acc: Account, actual: Summary, dry: Summary)
    requires Repaired(st0, st, accs) && acc.tag != 0 && acc.tag < st0.nextMailbox && Behind(actual, dry)
    ensures var actual' := ScanAccount(Run(st, actual), acc, true).sum;
            var dry' := ScanAccount(Run(st0, dry), acc, true).sum;
            && Behind(actual', dry')
            && (Differs(actual, dry) || Concerns(st0, accs, acc) ==> Differs(actual', dry'))
            && (actual == dry && !Concerns(st0, accs, acc) ==> actual' == dry')
  {
    RepairedGrows(st0, st, accs);
    hide Repaired, Grown, Shares, Receives, LostOne, Members, ScanMembers, ScanAccount, IsOrphan, Added;
    hide Behind, Differs;
    AddedIff(st0, st, accs, acc);
    LostIff(st0, st, accs, acc);
    var a, d := actual.(accounts := actual.accounts + 1), dry.(accounts := dry.accounts + 1);
    AddedLast(st0, st, acc.tag);
    AccountSum(st, actual, acc);
    AccountSum(st0, dry, acc);
    OneMoreBoth(actual, dry);
    CompareMore(st0, st, acc, Members(st0.rows, acc.tag), Added(st0, st, acc.tag), a, d);
  }

  lemma AccountSum(st: State, sum: Summary, acc: Account)
    requires acc.tag != 0
    ensures ScanAccount(Run(st, sum), acc, true).sum ==
              ScanMembers(Run(st, sum.(accounts := sum.accounts + 1)), acc, Members(st.rows, acc.tag), true).sum
  {
    hide Members, ScanMembers;
  }

  lemma OneMoreBoth(actual: Summary, dry: Summary)
    ensures var a, d := actual.(accounts := actual.accounts + 1), dry.(accounts := dry.accounts + 1);
            Behind(a, d) == Behind(actual, dry) && Differs(a, d) == Differs(actual, dry)
  {
  }

  lemma RepairedGrows(st0: State, st: State, accs: seq<Account>)
    requires Repaired(st0, st, accs)
    ensures Grown(st0, st) && st0.rows <= st.rows
  {
    hide Placed;
  }

  lemma AddedLast(st0: State, st: State, tag: nat)
    requires st0.rows <= st.rows
    ensures Members(st.rows, tag) == Members(st0.rows, tag) + Added(st0, st, tag)
  {
    assert st.rows == st0.rows + st.rows[|st0.rows|..];
    MembersSplit(st0.rows, st.rows[|st0.rows|..], tag);
  }

  /** Some account is concerned by what those before it file. */
  ghost predicate SomeConcern(st: State, accs: seq<Account>) {
    exists j :: 0 <= j < |accs| && accs[j].tag != 0 && Concerns(st, accs[..j], accs[j])
  }

  lemma SomeConcernOn(st: State, accs: seq<Account>, acc: Account)
    ensures SomeConcern(st, accs + [acc]) <==> SomeConcern(st, accs) || (acc.tag != 0 && Concerns(st, accs, acc))
  {
    hide Concerns;
    var all := accs + [acc];
    assert all[..|accs|] == accs;
    assert forall j :: 0 <= j < |accs| ==> all[..j] == accs[..j] && all[j] == accs[j];
    if SomeConcern(st, accs) {
      var j :| 0 <= j < |accs| && accs[j].tag != 0 && Concerns(st, accs[..j], accs[j]);
      assert Concerns(st, all[..j], all[j]);
    }
    if acc.tag != 0 && Concerns(st, accs, acc) {
      assert Concerns(st, all[..|accs|], all[|accs|]);
    }
  }

  lemma {:induction false} CompareRuns(st: State, accs: seq<Account>)
    requires LabelsMade(st, accs)
    ensures Behind(Repair(st, accs, false).sum, Repair(st, accs, true).sum)
    ensures SomeConcern(st, accs) ==> Differs(Repair(st, accs, false).sum, Repair(st, accs, true).sum)
    ensures !SomeConcern(st, accs) ==> Repair(st, accs, false).sum == Repair(st, accs, true).sum
  {
    hide SomeConcern, Concerns, ScanAccount, Repaired;
    if accs == [] {
      NoConcern(st);
    } else {
      var some, acc := accs[..|accs| - 1], accs[|accs| - 1];
      assert accs == some + [acc];
      CompareRuns(st, some);
      AllAccounts(st, some);
      DryRun(st, some);
      SomeConcernOn(st, some, acc);
      var actual, dry := Repair(st, some, false), Repair(st, some, true);
      AccountPredicts(actual, acc);
      if acc.tag != 0 {
        CompareAccount(st, actual.st, some, acc, actual.sum, dry.sum);
      } else {
        NoLabel(actual, acc);
        NoLabel(dry, acc);
      }
    }
  }

  lemma NoConcern(st: State)
    ensures !SomeConcern(st, [])
  {
  }

  lemma NoLabel(run: Run, acc: Account)
    requires acc.tag == 0
    ensures ScanAccount(run, acc, true) == run
  {
  }

  /** The dry run writes nothing. It returns the summary the real run returns if and only
      if no orphan that an account files is an orphan of a later account as well, or is
      filed into a later account's label. */
  lemma DryRunPredictsIff(st: State, accs: seq<Account>)
    requires LabelsMade(st, accs)
    ensures Repair(st, accs, true).st == st
    ensures Repair(st, accs, true).sum == Repair(st, accs, false).sum <==> !SomeConcern(st, accs)
  {
    hide SomeConcern, ScanAccounts;
    DryRun(st, accs);
    CompareRuns(st, accs);
  }

  // -- What an orphan is, and where it goes ---------------------------------

  lemma {:induction false} BoxesDistinct(rows: seq<Row>, m: nat, i: nat, j: nat)
    requires forall k, l :: 0 <= k < l < |rows| && rows[k].mailbox == rows[l].mailbox ==> rows[k].msg != rows[l].msg
    requires i < j < |Boxes(rows, m)|
    ensures Boxes(rows, m)[i] != Boxes(rows, m)[j]
  {
    var some, x := rows[..|rows| - 1], rows[|rows| - 1];
    var before := Boxes(some, m);
    if j < |before| {
      BoxesDistinct(some, m, i, j);
    } else {
      assert before[i] in before;
      var y :| y in some && y.msg == m && y.mailbox == before[i];
      var k :| 0 <= k < |some| && some[k] == y;
      assert rows[k] == y;
    }
  }

  /** In a sound store an orphan of an account is a message that the account does not track
      and whose one and only mailbox is the account's label. */
  lemma OrphanIff(st: State, acc: Account, m: nat)
    requires WellFormed(st)
    ensures IsOrphan(st, acc, m) <==>
              && (acc.id, m) !in st.tracked
              && (exists x :: x in st.rows && x.msg == m)
              && (forall x :: x in st.rows && x.msg == m ==> x.mailbox == acc.tag)
  {
    var boxes := Boxes(st.rows, m);
    forall x | x in st.rows && x.msg == m ensures x.mailbox in boxes {
      HasBox(st.rows, x);
    }
    if boxes != [] {
      assert boxes[0] in boxes;
    }
    if |boxes| > 1 {
      BoxesDistinct(st.rows, m, 0, 1);
      assert boxes[1] in boxes;
    }
  }

  lemma {:induction false} FirstWithIs(mbs: seq<Mailbox>, attr: Attr)
    ensures FirstWith(mbs, attr).None? <==> forall i :: 0 <= i < |mbs| ==> attr !in mbs[i].attrs
    ensures FirstWith(mbs, attr).Some? ==>
              exists i :: 0 <= i < |mbs| && attr in mbs[i].attrs && mbs[i].id == FirstWith(mbs, attr).value
                          && forall j :: 0 <= j < i ==> attr !in mbs[j].attrs
  {
    if mbs != [] && attr !in mbs[0].attrs {
      FirstWithIs(mbs[1..], attr);
      assert forall i :: 0 < i < |mbs| ==> mbs[i] == mbs[1..][i - 1];
      if FirstWith(mbs, attr).Some? {
        var i :| 0 <= i < |mbs| - 1 && attr in mbs[1..][i].attrs && mbs[1..][i].id == FirstWith(mbs, attr).value
                 && forall j :: 0 <= j < i ==> attr !in mbs[1..][j].attrs;
        assert mbs[i + 1].id == FirstWith(mbs, attr).value;
      }
    }
  }

  lemma {:induction false} FirstNamedIs(mbs: seq<Mailbox>, name: string)
    ensures FirstNamed(mbs, name).None? <==> forall i :: 0 <= i < |mbs| ==> !EqualFold(mbs[i].name, name)
    ensures FirstNamed(mbs, name).Some? ==>
              exists i :: 0 <= i < |mbs| && EqualFold(mbs[i].name, name) && mbs[i].id == FirstNamed(mbs, name).value
                          && forall j :: 0 <= j < i ==> !EqualFold(mbs[j].name, name)
  {
    hide EqualFold;
    if mbs != [] && !EqualFold(mbs[0].name, name) {
      FirstNamedIs(mbs[1..], name);
      assert forall i :: 0 < i < |mbs| ==> mbs[i] == mbs[1..][i - 1];
      if FirstNamed(mbs, name).Some? {
        var i :| 0 <= i < |mbs| - 1 && EqualFold(mbs[1..][i].name, name)
                 && mbs[1..][i].id == FirstNamed(mbs, name).value
                 && forall j :: 0 <= j < i ==> !EqualFold(mbs[1..][j].name, name);
        assert mbs[i + 1].id == FirstNamed(mbs, name).value;
      }
    }
  }

  /** The mailbox that serves a role is the first that has the attribute; if none has, the
      first with the name, in any letter case; if there is none either, one is made with
      both. */
  lemma RoleMailbox(st: State, attr: Attr)
    ensures var mbs, name := st.mailboxes, if attr == Junk then "Junk" else "INBOX";
            var (st', mailbox) := Resolved(st, attr);
            && st'.rows == st.rows
            && ((exists i :: 0 <= i < |mbs| && attr in mbs[i].attrs && mbs[i].id == mailbox
                             && forall j :: 0 <= j < i ==> attr !in mbs[j].attrs)
                || ((forall i :: 0 <= i < |mbs| ==> attr !in mbs[i].attrs)
                    && exists i :: 0 <= i < |mbs| && EqualFold(mbs[i].name, name) && mbs[i].id == mailbox
                                   && forall j :: 0 <= j < i ==> !EqualFold(mbs[j].name, name))
                || ((forall i :: 0 <= i < |mbs| ==> attr !in mbs[i].attrs && !EqualFold(mbs[i].name, name))
                    && mailbox == st.nextMailbox && Mailbox(mailbox, name, {attr}) in st'.mailboxes))
  {
    hide EqualFold, FirstWith, FirstNamed, InsertByName;
    FirstWithIs(st.mailboxes, attr);
    FirstNamedIs(st.mailboxes, NameOf(attr));
    InsertedIn(st.mailboxes, Mailbox(st.nextMailbox, NameOf(attr), {attr}));
  }

  lemma {:induction false} InsertedIn(mbs: seq<Mailbox>, mb: Mailbox)
    ensures mb in InsertByName(mbs, mb)
  {
    if mbs != [] {
      InsertedIn(mbs[1..], mb);
    }
  }

  /** After a run every orphan is in the mailbox that serves as Junk if its recorded verdict
      is spam, in any letter case, and otherwise in the one that serves as INBOX; and in no
      other but the label. */
  lemma FiledWhere(st: State, accs: seq<Account>, acc: Account, m: nat)
    requires LabelsMade(st, accs) && acc in accs && acc.tag != 0 && IsOrphan(st, acc, m)
    ensures var st' := Repair(st, accs, false).st;
            var role := if m in st.verdicts && EqualFold(st.verdicts[m], "spam") then Junk else Inbox;
            && Existing(st'.mailboxes, role).Some?
            && var mailbox := Existing(st'.mailboxes, role).value;
               Boxes(st'.rows, m) == if mailbox == acc.tag then [acc.tag] else [acc.tag, mailbox]
  {
    var role := if m in st.verdicts && EqualFold(st.verdicts[m], "spam") then Junk else Inbox;
    assert TargetOf(st, m) == role;
    AllAccounts(st, accs);
    hide Existing, Boxes, EqualFold, ScanAccounts, TargetOf;
    var st' := Repair(st, accs, false).st;
    assert Placed(st, st', m, FiledBy(st, accs, m));
    if FiledBy(st, accs, m) {
      var now := Boxes(st'.rows, m);
      assert now == [acc.tag, now[1]];
      TargetFrom(st, st', m, now[1]);
    } else {
      assert ToFile(st, acc, m) ==> FiledBy(st, accs, m);
    }
  }

  /** The orphans among some members whose recorded verdict is spam; and the others. */
  function SpamOrphans(st: State, acc: Account, rows: seq<Row>): nat {
    if rows == [] then 0
    else
      var m := rows[|rows| - 1].msg;
      SpamOrphans(st, acc, rows[..|rows| - 1])
      + if IsOrphan(st, acc, m) && m in st.verdicts && EqualFold(st.verdicts[m], "spam") then 1 else 0
  }

  function OtherOrphans(st: State, acc: Account, rows: seq<Row>): nat {
    if rows == [] then 0
    else
      var m := rows[|rows| - 1].msg;
      OtherOrphans(st, acc, rows[..|rows| - 1])
      + if IsOrphan(st, acc, m) && !(m in st.verdicts && EqualFold(st.verdicts[m], "spam")) then 1 else 0
  }

  lemma {:induction false} DryCounts(run: Run, acc: Account, rows: seq<Row>)
    ensures var spam, other := SpamOrphans(run.st, acc, rows), OtherOrphans(run.st, acc, rows);
            ScanMembers(run, acc, rows, true).sum ==
              run.sum.(members := run.sum.members + |rows|, orphans := run.sum.orphans + spam + other,
                       junk := run.sum.junk + spam, inbox := run.sum.inbox + other)
  {
    hide IsOrphan, EqualFold;
    if rows != [] {
      DryCounts(run, acc, rows[..|rows| - 1]);
      DryScan(run, acc, rows[..|rows| - 1]);
    }
  }

  /** Scanning an account, in earnest or not, counts all its members, and as junk exactly the
      orphans among them whose recorded verdict is spam. */
  lemma AccountCounts(run: Run, acc: Account, dryRun: bool)
    requires acc.tag != 0
    ensures var ms := Members(run.st.rows, acc.tag);
            var spam, other := SpamOrphans(run.st, acc, ms), OtherOrphans(run.st, acc, ms);
            ScanAccount(run, acc, dryRun).sum ==
              Summary(run.sum.accounts + 1, run.sum.members + |ms|, run.sum.orphans + spam + other,
                      run.sum.junk + spam, run.sum.inbox + other, run.sum.errors)
  {
    hide Members, ScanMembers, SpamOrphans, OtherOrphans;
    AccountPredicts(run, acc);
    DryCounts(Run(run.st, run.sum.(accounts := run.sum.accounts + 1)), acc, Members(run.st.rows, acc.tag));
  }

  /** Over all accounts, each with its label. */
  function AllSpam(st: State, accs: seq<Account>): nat {
    if accs == [] then 0
    else
      var acc := accs[|accs| - 1];
      AllSpam(st, accs[..|accs| - 1]) + if acc.tag == 0 then 0 else SpamOrphans(st, acc, Members(st.rows, acc.tag))
  }

  /** So the junk count of a dry run is the number of orphans whose recorded verdict is spam,
      and that of a real run too when the two agree. */
  lemma {:induction false} JunkCount(st: State, accs: seq<Account>)
    ensures Repair(st, accs, true).sum.junk == AllSpam(st, accs)
    ensures LabelsMade(st, accs) && !SomeConcern(st, accs) ==> Repair(st, accs, false).sum.junk == AllSpam(st, accs)
  {
    hide SpamOrphans, ScanAccount, SomeConcern;
    if LabelsMade(st, accs) {
      CompareRuns(st, accs);
    }
    if accs != [] {
      var some, acc := accs[..|accs| - 1], accs[|accs| - 1];
      JunkCount(st, some);
      DryRun(st, some);
      var run := Repair(st, some, true);
      if acc.tag != 0 {
        AccountCounts(run, acc, true);
      } else {
        NoLabel(run, acc);
      }
    }
  }

  // -- Where the labels are apart -------------------------------------------

  /** The labels of the accounts that have one. */
  function Labels(accs: seq<Account>): set<nat> {
    set acc | acc in accs && acc.tag != 0 :: acc.tag
  }

  predicate DistinctLabels(accs: seq<Account>) {
    forall i, j :: 0 <= i < j < |accs| && accs[i].tag != 0 ==> accs[i].tag != accs[j].tag
  }

  /** No label serves as INBOX or Junk. */
  predicate TargetsApart(st: State, labels: set<nat>) {
    forall attr: Attr :: Existing(st.mailboxes, attr).Some? ==> Existing(st.mailboxes, attr).value !in labels
  }

  /** So the dry run is right when no two accounts share a label and none is a target; */
  lemma DryRunPredicts(st: State, accs: seq<Account>)
    requires LabelsMade(st, accs) && DistinctLabels(accs) && TargetsApart(st, Labels(accs))
    ensures Repair(st, accs, true).sum == Repair(st, accs, false).sum && Repair(st, accs, true).st == st
  {
    DryRunPredictsIff(st, accs);
    hide Existing, Boxes, TargetOf, ScanAccounts;
    forall j | 0 <= j < |accs| && accs[j].tag != 0 ensures !Concerns(st, accs[..j], accs[j]) {
      assert accs[j].tag in Labels(accs);
      forall m | FiledBy(st, accs[..j], m) ensures !IsOrphan(st, accs[j], m) {
        var acc :| acc in accs[..j] && ToFile(st, acc, m);
      }
    }
  }

  /** and the second run finds nothing when no label is a target. */
  lemma SecondRunFindsNone(st: State, accs: seq<Account>)
    requires LabelsMade(st, accs) && TargetsApart(st, Labels(accs))
    ensures var st' := Repair(st, accs, false).st;
            Repair(st', accs, false).sum.orphans == 0 && Repair(st', accs, false).st == st'
  {
    SecondRunFindsNoneIff(st, accs);
    hide Existing, Boxes, TargetOf, ScanAccounts, Members, IsOrphan;
    forall acc, x | acc in accs && acc.tag != 0 && x in Members(st.rows, acc.tag) ensures !SelfFiled(st, acc, x.msg) {
      assert acc.tag in Labels(accs);
    }
  }

  // -- Why the conditions are there -----------------------------------------

  lemma ScanOne(run: Run, acc: Account, x: Row, dryRun: bool)
    ensures ScanMembers(run, acc, [x], dryRun) ==
              Run(RepairOne(run.st, acc, x.msg, dryRun), Tally(run.sum, FindingFor(run.st, acc, x.msg)))
  {
    assert [x][..0] == [];
  }

  lemma ScanTwo(run: Run, a: Account, b: Account, dryRun: bool)
    ensures ScanAccounts(run, [a], dryRun) == ScanAccount(run, a, dryRun)
    ensures ScanAccounts(run, [a, b], dryRun) == ScanAccount(ScanAccount(run, a, dryRun), b, dryRun)
  {
    assert [a, b][..1] == [a] && [a][..0] == [];
  }

  lemma OneRow(x: Row, mailbox: nat)
    ensures Boxes([x], x.msg) == [x.mailbox]
    ensures Members([x], mailbox) == if x.mailbox == mailbox then [x] else []
  {
    assert [x][..0] == [];
  }

  lemma TwoRows(x: Row, y: Row, mailbox: nat)
    requires x.msg == y.msg
    ensures Boxes([x, y], x.msg) == [x.mailbox, y.mailbox]
    ensures x.mailbox != mailbox && y.mailbox == mailbox ==> Members([x, y], mailbox) == [y]
    ensures x.mailbox == mailbox && y.mailbox != mailbox ==> Members([x, y], mailbox) == [x]
  {
    assert [x, y] == [x] + [y];
    OneRow(x, mailbox);
    BoxesAppend([x], y, x.msg);
    MembersAppend([x], y, mailbox);
  }

  /** A store with an INBOX, one label, and one message in one of them. */
  function Small(mailbox: nat, msg: nat): State {
    State([Mailbox(1, "INBOX", {Inbox}), Mailbox(2, "label", {})], [Row(mailbox, msg, 1)],
          {}, map[], map[mailbox := 2], 3)
  }

  /** The same once the message in the label has been filed. */
  function SmallFiled(msg: nat): State {
    State([Mailbox(1, "INBOX", {Inbox}), Mailbox(2, "label", {})], [Row(2, msg, 1), Row(1, msg, 1)],
          {}, map[], map[2 := 2, 1 := 2], 3)
  }

  lemma SmallSound(mailbox: nat, msg: nat)
    ensures WellFormed(Small(mailbox, msg))
  {
    assert Le("INBOX", "label");
  }

  lemma SmallTarget(mailbox: nat, msg: nat)
    ensures Existing(Small(mailbox, msg).mailboxes, Inbox) == Some(1)
  {
    hide EqualFold;
  }

  lemma SmallOrphan(mailbox: nat, msg: nat, id: string)
    ensures IsOrphan(Small(mailbox, msg), Account(id, mailbox), msg) && !IsSpam(Small(mailbox, msg), msg)
    ensures FindingFor(Small(mailbox, msg), Account(id, mailbox), msg) == Filed(false)
  {
    OneRow(Row(mailbox, msg, 1), mailbox);
  }

  lemma SmallStays(msg: nat, id: string)
    ensures RepairOne(Small(1, msg), Account(id, 1), msg, false) == Small(1, msg)
  {
    hide IsOrphan, IsSpam, Existing;
    SmallOrphan(1, msg, id);
    SmallTarget(1, msg);
    OneRow(Row(1, msg, 1), 1);
  }

  lemma SmallIsFiled(msg: nat, id: string)
    ensures RepairOne(Small(2, msg), Account(id, 2), msg, false) == SmallFiled(msg)
  {
    hide IsOrphan, IsSpam, Existing;
    SmallOrphan(2, msg, id);
    SmallTarget(2, msg);
    OneRow(Row(2, msg, 1), 2);
    assert Small(2, msg).rows + [Row(1, msg, 1)] == SmallFiled(msg).rows;
  }

  /** The first account finds and files the orphan. */
  lemma ScanSmall(msg: nat, id: string, dryRun: bool)
    ensures ScanAccount(Run(Small(2, msg), NOTHING), Account(id, 2), dryRun) ==
              Run(if dryRun then Small(2, msg) else SmallFiled(msg), Summary(1, 1, 1, 0, 1, 0))
  {
    hide RepairOne, FindingFor, ScanMembers, Members;
    SmallOrphan(2, msg, id);
    SmallIsFiled(msg, id);
    SmallMembers(msg);
    hide Small, SmallFiled;
    DryChangesNothing(Small(2, msg), Account(id, 2), msg);
    ScanOne(Run(Small(2, msg), NOTHING.(accounts := 1)), Account(id, 2), Row(2, msg, 1), dryRun);
  }

  lemma SmallMembers(msg: nat)
    ensures Members(Small(2, msg).rows, 2) == [Row(2, msg, 1)]
  {
    OneRow(Row(2, msg, 1), 2);
  }

  lemma DryChangesNothing(st: State, acc: Account, msg: nat)
    ensures RepairOne(st, acc, msg, true) == st
  {
  }

  /** A label that is the INBOX: the dry run agrees, but the orphan it holds is reported
      as filed and stays as it was, so every further run finds it again. */
  lemma OwnLabelFoundAgain(msg: nat, id: string)
    ensures var st, accs := Small(1, msg), [Account(id, 1)];
            && WellFormed(st) && LabelsMade(st, accs) && DistinctLabels(accs)
            && Repair(st, accs, false).st == st && Repair(st, accs, false).sum.orphans == 1
  {
    hide RepairOne, FindingFor, ScanMembers, WellFormed;
    var st, acc := Small(1, msg), Account(id, 1);
    SmallSound(1, msg);
    SmallOrphan(1, msg, id);
    SmallStays(msg, id);
    OneRow(Row(1, msg, 1), 1);
    ScanTwo(Run(st, NOTHING), acc, acc, false);
    ScanOne(Run(st, NOTHING.(accounts := 1)), acc, Row(1, msg, 1), false);
  }

  /** A label that is the INBOX, of an account scanned after another's: the orphan that
      the first account has filed is a member of the second's label by then, and the
      real run counts one member more than the dry run. */
  lemma OtherLabelCountsMore(msg: nat, id: string, id': string)
    ensures var st, accs := Small(2, msg), [Account(id, 2), Account(id', 1)];
            && WellFormed(st) && LabelsMade(st, accs) && DistinctLabels(accs)
            && Repair(st, accs, true).sum.members == 1 && Repair(st, accs, false).sum.members == 2
  {
    hide RepairOne, FindingFor, ScanMembers, ScanAccounts, WellFormed;
    var st, a, b := Small(2, msg), Account(id, 2), Account(id', 1);
    var sum := Summary(2, 1, 1, 0, 1, 0);
    SmallSound(2, msg);
    ScanSmall(msg, id, true);
    ScanSmall(msg, id, false);
    ScanTwo(Run(st, NOTHING), a, b, true);
    ScanTwo(Run(st, NOTHING), a, b, false);
    OneRow(Row(2, msg, 1), 1);
    TwoRows(Row(2, msg, 1), Row(1, msg, 1), 1);
    ScanNone(Run(st, sum), b);
    ScanOne(Run(SmallFiled(msg), sum), b, Row(1, msg, 1), false);
    FiledNoOrphan(msg, id', 1);
  }

  lemma ScanNone(run: Run, acc: Account)
    ensures ScanMembers(run, acc, [], true) == run
  {
  }

  /** Two accounts with one label: the dry run counts its orphan for both, the real run
      for the first alone. */
  lemma SharedLabelCountsOnce(msg: nat, id: string, id': string)
    ensures var st, accs := Small(2, msg), [Account(id, 2), Account(id', 2)];
            && WellFormed(st) && LabelsMade(st, accs) && TargetsApart(st, Labels(accs))
            && Repair(st, accs, true).sum.orphans == 2 && Repair(st, accs, false).sum.orphans == 1
  {
    hide RepairOne, FindingFor, ScanMembers, ScanAccounts, WellFormed, TargetsApart;
    var st, a, b := Small(2, msg), Account(id, 2), Account(id', 2);
    var sum := Summary(2, 1, 1, 0, 1, 0);
    SmallSound(2, msg);
    SmallApart(msg);
    assert Labels([a, b]) == {2};
    ScanSmall(msg, id, true);
    ScanSmall(msg, id, false);
    ScanTwo(Run(st, NOTHING), a, b, true);
    ScanTwo(Run(st, NOTHING), a, b, false);
    OneRow(Row(2, msg, 1), 2);
    TwoRows(Row(2, msg, 1), Row(1, msg, 1), 2);
    ScanOne(Run(st, sum), b, Row(2, msg, 1), true);
    ScanOne(Run(SmallFiled(msg), sum), b, Row(2, msg, 1), false);
    SmallOrphan(2, msg, id');
    FiledNoOrphan(msg, id', 2);
  }

  lemma FiledNoOrphan(msg: nat, id: string, tag: nat)
    ensures FindingFor(SmallFiled(msg), Account(id, tag), msg) == NotOrphan
  {
    TwoRows(Row(2, msg, 1), Row(1, msg, 1), 2);
  }

  lemma SmallApart(msg: nat)
    ensures TargetsApart(Small(2, msg), {2})
  {
    var mbs := Small(2, msg).mailboxes;
    SmallTarget(2, msg);
    assert mbs[1..] == [mbs[1]] && [mbs[1]][1..] == [];
    assert |FoldAll("INBOX")| == 5 && |FoldAll("label")| == 5 && |FoldAll("Junk")| == 4;
    assert FirstNamed(mbs, "Junk") == None && FirstWith(mbs, Junk) == None;
    forall attr: Attr ensures Existing(mbs, attr).Some? ==> Existing(mbs, attr).value !in {2} {
      assert attr == Inbox || attr == Junk;
    }
  }
}
