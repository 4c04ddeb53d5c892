/** How long a drive can take: every run of driveOrder ends, and within a fixed
    number of posts. */
module AcmeBounds {
  import opened AcmeMachine
  import opened AcmeDrive

  /** A drive about to begin: the order row is persisted, the order document known. */
  predicate AtDriveStart(p: Proc) {
    p.phase == DriveStart(p) && p.teardowns == []
  }

  predicate InBounds(p: Proc) {
    match p.phase
    case Authorizing(k) => k < |p.authzs|
    case Provisioning(k, _, _) => k < |p.authzs|
    case Acking(k, _) => k < |p.authzs|
    case AuthzWaiting(k, i) => k < |p.authzs| && i < p.env.maxPolls
    case AuthzPolling(k, i) => k < |p.authzs| && i < p.env.maxPolls
    case Waiting(i) => i < p.env.maxPolls
    case Polling(i) => i < p.env.maxPolls
    case PersistPolled(i) => i < p.env.maxPolls
    case CleaningUp(j, _) => j < |p.teardowns|
    case ph => Stage(ph) >= 3
  }

  function Times(n: nat, cost: nat): nat {
    if n == 0 then 0 else cost + Times(n - 1, cost)
  }

  lemma {:induction false} TimesIsProduct(n: nat, cost: nat)
    ensures Times(n, cost) == n * cost
  {
    if n > 0 {
      TimesIsProduct(n - 1, cost);
    }
  }

  /** The posts a drive may still make. */
  function Budget(p: Proc): nat
    requires InBounds(p)
  {
    var polls, n := p.env.maxPolls, |p.authzs|;
    match p.phase
    case Authorizing(k) => Times(n - k, polls + 2) + polls + 3
    case Provisioning(k, _, _) => Times(n - k - 1, polls + 2) + polls + 1 + polls + 3
    case Acking(k, _) => Times(n - k - 1, polls + 2) + polls + 1 + polls + 3
    case AuthzWaiting(k, i) => Times(n - k - 1, polls + 2) + (polls - i) + polls + 3
    case AuthzPolling(k, i) => Times(n - k - 1, polls + 2) + (polls - i) + polls + 3
    case Refreshing => polls + 3
    case PersistRefreshed | MakingKey | Finalizing(_) => polls + 2
    case PersistFinalized => polls + 1
    case Waiting(i) => polls - i + 1
    case Polling(i) => polls - i + 1
    case PersistPolled(i) => polls - i
    case Downloading => 1
    case _ => 0
  }

  lemma InBoundsStep(p: Proc, e: Event)
    requires InBounds(p) && Answers(p, e)
    ensures InBounds(After(p, e))
  {
    StageGrows(p, e);
  }

  lemma BudgetAuthorizing(p: Proc, e: Event)
    requires InBounds(p) && Answers(p, e) && InBounds(After(p, e)) && p.phase.Authorizing?
    ensures Budget(After(p, e)) + (if IsPost(e) then 1 else 0) <= Budget(p)
  {
  }

  lemma BudgetPresenting(p: Proc, e: Event)
    requires InBounds(p) && Answers(p, e) && InBounds(After(p, e)) && (p.phase.Provisioning? || p.phase.Acking?)
    ensures Budget(After(p, e)) + (if IsPost(e) then 1 else 0) <= Budget(p)
  {
  }

  lemma BudgetAuthzPoll(p: Proc, e: Event)
    requires InBounds(p) && Answers(p, e) && InBounds(After(p, e)) && (p.phase.AuthzWaiting? || p.phase.AuthzPolling?)
    ensures Budget(After(p, e)) + (if IsPost(e) then 1 else 0) <= Budget(p)
  {
  }

  lemma BudgetFinalizing(p: Proc, e: Event)
    requires InBounds(p) && Answers(p, e) && InBounds(After(p, e)) && 3 <= Stage(p.phase) <= 6
    ensures Budget(After(p, e)) + (if IsPost(e) then 1 else 0) <= Budget(p)
  {
  }

  lemma BudgetWaiting(p: Proc, e: Event)
    requires InBounds(p) && Answers(p, e) && InBounds(After(p, e)) && (p.phase.PersistFinalized? || p.phase.Waiting?)
    ensures Budget(After(p, e)) + (if IsPost(e) then 1 else 0) <= Budget(p)
  {
  }

  lemma BudgetPolling(p: Proc, e: Event)
    requires InBounds(p) && Answers(p, e) && InBounds(After(p, e)) && (p.phase.Polling? || p.phase.PersistPolled?)
    ensures Budget(After(p, e)) + (if IsPost(e) then 1 else 0) <= Budget(p)
  {
  }

  lemma BudgetEnding(p: Proc, e: Event)
    requires InBounds(p) && Answers(p, e) && InBounds(After(p, e)) && 9 <= Stage(p.phase)
    ensures Budget(After(p, e)) + (if IsPost(e) then 1 else 0) <= Budget(p)
  {
  }

  lemma BudgetStep(p: Proc, e: Event)
    requires InBounds(p) && Answers(p, e)
    ensures InBounds(After(p, e))
    ensures Budget(After(p, e)) + (if IsPost(e) then 1 else 0) <= Budget(p)
  {
    hide Answers, After, Budget;
    InBoundsStep(p, e);
    if p.phase.Authorizing? {
      BudgetAuthorizing(p, e);
    } else if p.phase.Provisioning? || p.phase.Acking? {
      BudgetPresenting(p, e);
    } else if Stage(p.phase) == 2 {
      BudgetAuthzPoll(p, e);
    } else if Stage(p.phase) <= 6 {
      BudgetFinalizing(p, e);
    } else if p.phase.PersistFinalized? || p.phase.Waiting? {
      BudgetWaiting(p, e);
    } else if Stage(p.phase) <= 8 {
      BudgetPolling(p, e);
    } else {
      BudgetEnding(p, e);
    }
  }

  lemma {:induction false} BudgetHolds(c: Config, t: seq<Event>)
    requires InBounds(c.proc) && IsRun(c, t)
    ensures InBounds(Run(c, t).proc)
    ensures PostCount(t) + Budget(Run(c, t).proc) <= Budget(c.proc)
  {
    hide Answers, Enabled, After, Persist, Touch;
    if t != [] {
      BudgetHolds(c, Init(t));
      BudgetStep(Run(c, Init(t)).proc, Last(t));
    }
  }

  lemma StartBudget(p: Proc)
    requires AtDriveStart(p)
    ensures InBounds(p)
    ensures Budget(p) <= |p.authzs| * (p.env.maxPolls + 2) + p.env.maxPolls + 3
  {
    TimesIsProduct(|p.authzs|, p.env.maxPolls + 2);
  }

  /** A drive with A authorisations and poll limit P posts at most
      A * (P + 2) + P + 3 times, whatever is answered. */
  lemma DrivePostBound(c: Config, t: seq<Event>)
    requires AtDriveStart(c.proc) && IsRun(c, t)
    ensures PostCount(t) <= |c.proc.authzs| * (c.proc.env.maxPolls + 2) + c.proc.env.maxPolls + 3
  {
    hide Answers, Enabled, After, Persist, Touch;
    StartBudget(c.proc);
    BudgetHolds(c, t);
  }

  /** The events of any kind a drive may still take part in. */
  function Rank(p: Proc): nat
    requires InBounds(p)
  {
    var polls, n, end := p.env.maxPolls, |p.authzs|, |p.teardowns| + 1;
    match p.phase
    case Authorizing(k) => Times(n - k, 2 * polls + 4) + 3 * polls + 10 + end
    case Provisioning(k, _, _) => Times(n - k - 1, 2 * polls + 4) + 2 * polls + 3 + 3 * polls + 10 + end
    case Acking(k, _) => Times(n - k - 1, 2 * polls + 4) + 2 * polls + 1 + 3 * polls + 10 + end
    case AuthzWaiting(k, i) => Times(n - k - 1, 2 * polls + 4) + 2 * (polls - i) + 3 * polls + 10 + end
    case AuthzPolling(k, i) => Times(n - k - 1, 2 * polls + 4) + 2 * (polls - i) - 1 + 3 * polls + 10 + end
    case Refreshing => 3 * polls + 9 + end
    case PersistRefreshed => 3 * polls + 8 + end
    case MakingKey => 3 * polls + 7 + end
    case Finalizing(_) => 3 * polls + 6 + end
    case PersistFinalized => 3 * polls + 5 + end
    case Waiting(i) => 3 * (polls - i) + 4 + end
    case Polling(i) => 3 * (polls - i) + 3 + end
    case PersistPolled(i) => 3 * (polls - i) + 2 + end
    case Downloading => 4 + end
    case Parsing(_) => 3 + end
    case Saving(_) => 2 + end
    case PersistSaved(_) => 1 + end
    case Marking => end
    case CleaningUp(j, _) => |p.teardowns| - j
    case _ => 0
  }

  lemma RankAuthorizing(p: Proc, e: Event)
    requires InBounds(p) && Answers(p, e) && InBounds(After(p, e)) && p.phase.Authorizing?
    ensures Rank(After(p, e)) < Rank(p)
  {
  }

  lemma RankPresenting(p: Proc, e: Event)
    requires InBounds(p) && Answers(p, e) && InBounds(After(p, e)) && (p.phase.Provisioning? || p.phase.Acking?)
    ensures Rank(After(p, e)) < Rank(p)
  {
  }

  lemma RankAuthzPoll(p: Proc, e: Event)
    requires InBounds(p) && Answers(p, e) && InBounds(After(p, e)) && (p.phase.AuthzWaiting? || p.phase.AuthzPolling?)
    ensures Rank(After(p, e)) < Rank(p)
  {
  }

  lemma RankFinalizing(p: Proc, e: Event)
    requires InBounds(p) && Answers(p, e) && InBounds(After(p, e)) && 3 <= Stage(p.phase) <= 6
    ensures Rank(After(p, e)) < Rank(p)
  {
  }

  lemma RankWaiting(p: Proc, e: Event)
    requires InBounds(p) && Answers(p, e) && InBounds(After(p, e)) && (p.phase.PersistFinalized? || p.phase.Waiting?)
    ensures Rank(After(p, e)) < Rank(p)
  {
  }

  lemma RankPolling(p: Proc, e: Event)
    requires InBounds(p) && Answers(p, e) && InBounds(After(p, e)) && (p.phase.Polling? || p.phase.PersistPolled?)
    ensures Rank(After(p, e)) < Rank(p)
  {
  }

  lemma RankSaving(p: Proc, e: Event)
    requires InBounds(p) && Answers(p, e) && InBounds(After(p, e)) && 9 <= Stage(p.phase) <= 11
    ensures Rank(After(p, e)) < Rank(p)
  {
  }

  lemma RankEnding(p: Proc, e: Event)
    requires InBounds(p) && Answers(p, e) && InBounds(After(p, e)) && 12 <= Stage(p.phase)
    ensures Rank(After(p, e)) < Rank(p)
  {
  }

  lemma RankStep(p: Proc, e: Event)
    requires InBounds(p) && Answers(p, e)
    ensures InBounds(After(p, e))
    ensures Rank(After(p, e)) < Rank(p)
  {
    hide Answers, After, Rank;
    InBoundsStep(p, e);
    if p.phase.Authorizing? {
      RankAuthorizing(p, e);
    } else if p.phase.Provisioning? || p.phase.Acking? {
      RankPresenting(p, e);
    } else if Stage(p.phase) == 2 {
      RankAuthzPoll(p, e);
    } else if Stage(p.phase) <= 6 {
      RankFinalizing(p, e);
    } else if p.phase.PersistFinalized? || p.phase.Waiting? {
      RankWaiting(p, e);
    } else if Stage(p.phase) <= 8 {
      RankPolling(p, e);
    } else if Stage(p.phase) <= 11 {
      RankSaving(p, e);
    } else {
      RankEnding(p, e);
    }
  }

  /** No drive runs for ever: the length of every run is bounded beforehand. */
  lemma {:induction false} DriveTerminates(c: Config, t: seq<Event>)
    requires InBounds(c.proc) && IsRun(c, t)
    ensures InBounds(Run(c, t).proc)
    ensures |t| + Rank(Run(c, t).proc) <= Rank(c.proc)
  {
    hide Answers, Enabled, After, Persist, Touch;
    if t != [] {
      DriveTerminates(c, Init(t));
      RankStep(Run(c, Init(t)).proc, Last(t));
    }
  }

  /** And no drive is stuck: something is due until it is done. */
  lemma DriveNeverStuck(p: Proc)
    requires InBounds(p) && !p.phase.Done?
    ensures Due(p) != Nothing
  {
  }

  // -- Whole calls ----------------------------------------------------------

  /** A call is a drive with at most one post before it (newOrder, or the re-fetch of a
      resumed order), and at most four events of any kind. */
  function CallBudget(p: Proc): nat {
    Times(|p.authzs|, p.env.maxPolls + 2) + p.env.maxPolls + 4
  }

  function CallRank(p: Proc): nat {
    Times(|p.authzs|, 2 * p.env.maxPolls + 4) + 3 * p.env.maxPolls + 15
  }

  /** The events before the drive, so far. */
  function Preamble(ph: Phase): nat {
    match ph
    case Inserting => 1
    case Ordering => 2
    case PersistPlaced | PersistResumed => 3
    case _ => 0
  }

  predicate CallInv(posts: nat, events: nat, p: Proc) {
    && (Stage(p.phase) <= 1 ==> p.teardowns == [] && posts <= Stage(p.phase) && events <= Preamble(p.phase))
    && (Stage(p.phase) >= 2 ==>
          InBounds(p) && posts + Budget(p) <= CallBudget(p) && events + Rank(p) <= CallRank(p))
  }

  /** Before the drive: the row is inserted, */
  lemma CallBegins(posts: nat, events: nat, p: Proc, e: Event)
    requires CallInv(posts, events, p) && Answers(p, e) && (p.phase.Starting? || p.phase.Inserting?)
    ensures CallInv(posts + (if IsPost(e) then 1 else 0), events + 1, After(p, e))
  {
  }

  /** the order placed or fetched, */
  lemma CallAsks(posts: nat, events: nat, p: Proc, e: Event)
    requires CallInv(posts, events, p) && Answers(p, e) && (p.phase.Ordering? || p.phase.Refetching?)
    ensures CallInv(posts + (if IsPost(e) then 1 else 0), events + 1, After(p, e))
  {
  }

  /** and the row written, after which the drive starts or the call fails. */
  lemma CallDrives(posts: nat, events: nat, p: Proc, e: Event)
    requires CallInv(posts, events, p) && Answers(p, e) && Stage(p.phase) == 1
    ensures CallInv(posts + (if IsPost(e) then 1 else 0), events + 1, After(p, e))
  {
  }

  lemma AuthzsFixed(p: Proc, e: Event)
    requires Answers(p, e) && Stage(p.phase) >= 2
    ensures After(p, e).authzs == p.authzs && After(p, e).env == p.env
  {
  }

  lemma CallInvStep(posts: nat, events: nat, p: Proc, e: Event)
    requires CallInv(posts, events, p) && Answers(p, e)
    ensures CallInv(posts + (if IsPost(e) then 1 else 0), events + 1, After(p, e))
  {
    if p.phase.Starting? || p.phase.Inserting? {
      CallBegins(posts, events, p, e);
    } else if Stage(p.phase) == 0 {
      CallAsks(posts, events, p, e);
    } else if Stage(p.phase) == 1 {
      CallDrives(posts, events, p, e);
    } else {
      hide Answers, After, Budget, Rank, InBounds;
      StageGrowsTo(p, e);
      AuthzsFixed(p, e);
      BudgetStep(p, e);
      RankStep(p, e);
    }
  }

  lemma StageGrowsTo(p: Proc, e: Event)
    requires Answers(p, e)
    ensures Stage(p.phase) <= Stage(After(p, e).phase)
  {
    hide Answers, NextPhase;
    StageGrows(p, e);
  }

  lemma {:induction false} CallInvHolds(c: Config, t: seq<Event>)
    requires Fresh(c) && IsRun(c, t)
    ensures CallInv(PostCount(t), |t|, Run(c, t).proc) && Run(c, t).proc.env == c.proc.env
  {
    hide Answers, Enabled, Persist, Touch, NextPhase, NextRow, NextAuthzs, NextSubject, NextTeardowns;
    if t == [] {
      FreshCall(c);
    } else {
      hide CallInv;
      CallInvHolds(c, Init(t));
      CallInvStep(PostCount(Init(t)), |Init(t)|, Run(c, Init(t)).proc, Last(t));
    }
  }

  lemma FreshCall(c: Config)
    requires Fresh(c)
    ensures CallInv(0, 0, c.proc)
  {
  }

  lemma CallBounds(posts: nat, events: nat, p: Proc)
    requires CallInv(posts, events, p)
    ensures posts <= |p.authzs| * (p.env.maxPolls + 2) + p.env.maxPolls + 4
    ensures events <= |p.authzs| * (2 * p.env.maxPolls + 4) + 3 * p.env.maxPolls + 15
    ensures !p.phase.Done? ==> Due(p) != Nothing
  {
    hide Budget, Rank;
    TimesIsProduct(|p.authzs|, p.env.maxPolls + 2);
    TimesIsProduct(|p.authzs|, 2 * p.env.maxPolls + 4);
    if Stage(p.phase) >= 2 && !p.phase.Done? {
      DriveNeverStuck(p);
    }
  }

  /** Every call of Order or resumeOrder, with A authorisations listed and poll limit P,
      posts at most A * (P + 2) + P + 4 times and takes a bounded number of steps in all;
      and until it has ended something is due. */
  lemma CallBounded(c: Config, t: seq<Event>)
    requires Fresh(c) && IsRun(c, t)
    ensures var p := Run(c, t).proc;
            && PostCount(t) <= |p.authzs| * (c.proc.env.maxPolls + 2) + c.proc.env.maxPolls + 4
            && |t| <= |p.authzs| * (2 * c.proc.env.maxPolls + 4) + 3 * c.proc.env.maxPolls + 15
            && (!p.phase.Done? ==> Due(p) != Nothing)
  {
    hide Answers, Enabled, After, Persist, Touch, CallInv;
    CallInvHolds(c, t);
    CallBounds(PostCount(t), |t|, Run(c, t).proc);
  }
}
