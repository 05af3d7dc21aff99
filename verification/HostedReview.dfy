/** When a job with an uncertain item is sent to review: over every run of the worker, from the claim of the job to
    its verdict, whatever the web process does in between. */
module HostedReview {
  import opened Wrappers
  import opened Hosted
  import opened HostedInvariants
  import opened HostedTheorems

  /** The checks that send a run away before it counts what earlier runs left; an expired approval is not among
      them, for it sends the job to review itself. */
  predicate TurnsAway(s: State, w: WorkerStep) {
    match (s.worker, w)
    case (Entering(run, Unchecked), CheckDeletion) => run.did in s.deletions
    case (Entering(run, NotDeleting), CheckAccount(expired)) => !expired && (run.did !in s.users || !s.users[run.did])
    case (Entering(run, Connected), CheckPolicy) =>
      run.policy !in s.policies || s.policies[run.policy] != PolicyRow(run.did, run.revision)
    case (Entering(_, Current), Acquire(acquired)) => acquired.AcquireFailed?
    case (AtItem(t, Undeleted), CheckCancel) => t.run.job !in s.jobs
    case (AtItem(t, Chosen), Observe(recheck)) => recheck.ReadFailed? && Applies(t.run, t.rows, t.row)
    case (AtItem(t, Unchanged), Reserve(available)) => !(available && WritesAllowed(s, t.run.did))
    case (Reserved(_, _), Begin(call)) => !call.Returned?
    case (InEffect(t, _, _, Marked), CheckGate(readable)) => !(readable && WritesAllowed(s, t.run.did))
    case (InEffect(_, _, _, Caught), Finish(call)) => !call.Returned?
    case (_, Throw) => Throwing(s.worker).Some?
    case _ => false
  }

  /** What a verdict says: a run that was turned away never ends in review, and another one does if it finds doubt. */
  predicate Heads(s: State, j: JobId, away: bool) {
    match s.worker
    case Finishing(_, st) => if away then st != NeedsReview else HasItem(s, j, ItemUncertain) ==> st == NeedsReview
    case Exiting(_, st) => away <==> st != NeedsReview
    case BeginFailed(_, _) => away
    case InEffect(_, _, _, stage) => away <==> stage.Refused? || stage.RefusedClosed? || stage.RefusedReset?
    case _ => !away
  }

  lemma EnterHeads(s: State, w: WorkerStep, j: JobId)
    requires s.worker.Entering? && Heads(s, j, false) && JobOf(Decide(s, w).to) == Some(j)
    ensures Heads(WorkerNext(s, w), j, TurnsAway(s, w))
  {
    hide Planned, PendingItems, JournalOf, HasItem;
  }

  lemma ItemHeads(s: State, w: WorkerStep, j: JobId)
    requires (s.worker.AtItem? || s.worker.Looping?) && Heads(s, j, false) && JobOf(Decide(s, w).to) == Some(j)
    ensures Heads(WorkerNext(s, w), j, TurnsAway(s, w))
  {
    hide Applies, WritesAllowed, HasItem;
  }

  lemma SendHeads(s: State, w: WorkerStep, j: JobId, away: bool)
    requires s.worker.InEffect? && (s.worker.stage.Journalled? || s.worker.stage.Marked? || s.worker.stage.Gated?) && Heads(s, j, away)
    ensures Heads(WorkerNext(s, w), j, away || TurnsAway(s, w))
  {
    hide WritesAllowed, HasItem, Do, FinishEffect, CatchEffect, RefuseEffect;
  }

  lemma CloseHeads(s: State, w: WorkerStep, j: JobId, away: bool)
    requires s.worker.InEffect? && Heads(s, j, away)
    requires s.worker.stage.Requested? || s.worker.stage.ReadBack? || s.worker.stage.Closed? || s.worker.stage.Recorded?
    ensures Heads(WorkerNext(s, w), j, away || TurnsAway(s, w))
  {
    hide HasItem, Confirmation, Do, StartEffect, CatchEffect, RefuseEffect;
  }

  lemma HandleHeads(s: State, w: WorkerStep, j: JobId, away: bool)
    requires s.worker.InEffect? && Heads(s, j, away)
    requires s.worker.stage.Caught? || s.worker.stage.CaughtClosed? || s.worker.stage.CaughtRecorded?
    ensures Heads(WorkerNext(s, w), j, away || TurnsAway(s, w))
  {
    hide HasItem, Overwrites, Do, StartEffect, FinishEffect, RefuseEffect;
  }

  lemma RefuseHeads(s: State, w: WorkerStep, j: JobId, away: bool)
    requires s.worker.InEffect? && Heads(s, j, away)
    requires s.worker.stage.Refused? || s.worker.stage.RefusedClosed? || s.worker.stage.RefusedReset?
    ensures Heads(WorkerNext(s, w), j, away || TurnsAway(s, w))
  {
    hide HasItem, Do, StartEffect, FinishEffect, CatchEffect;
  }

  lemma EffectHeads(s: State, w: WorkerStep, j: JobId, away: bool)
    requires s.worker.InEffect? && Heads(s, j, away)
    ensures Heads(WorkerNext(s, w), j, away || TurnsAway(s, w))
  {
    hide Heads, TurnsAway, WorkerNext;
    match s.worker.stage
    case Journalled | Marked | Gated => SendHeads(s, w, j, away);
    case Requested | ReadBack(_) | Closed(_) | Recorded(_) => CloseHeads(s, w, j, away);
    case Caught | CaughtClosed | CaughtRecorded => HandleHeads(s, w, j, away);
    case Refused | RefusedClosed | RefusedReset => RefuseHeads(s, w, j, away);
  }

  lemma EndHeads(s: State, w: WorkerStep, j: JobId, away: bool)
    requires s.worker.Claimed? || s.worker.Reserved? || s.worker.BeginFailed? || s.worker.Breaking? || s.worker.Exiting?
    requires Heads(s, j, away) && JobOf(Decide(s, w).to) == Some(j)
    ensures Heads(WorkerNext(s, w), j, away || TurnsAway(s, w))
  {
    hide HasItem, Opening;
  }

  lemma TallyHeads(s: State, w: WorkerStep, j: JobId, away: bool)
    requires (s.worker.Tallying? || s.worker.Finishing?) && JobOf(s.worker) == Some(j) && Heads(s, j, away)
    requires JobOf(Decide(s, w).to) == Some(j)
    ensures Heads(WorkerNext(s, w), j, away || TurnsAway(s, w))
  {
    var t := WorkerNext(s, w);
    assert t.items == s.items;
  }

  lemma WorkerHeads(s: State, w: WorkerStep, j: JobId, away: bool)
    requires JobOf(s.worker) == Some(j) && JobOf(WorkerNext(s, w).worker) == Some(j) && Heads(s, j, away)
    ensures Heads(WorkerNext(s, w), j, away || TurnsAway(s, w))
  {
    assert JobOf(Decide(s, w).to) == Some(j);
    if s.worker.Entering? { EnterHeads(s, w, j); }
    else if s.worker.AtItem? || s.worker.Looping? { ItemHeads(s, w, j); }
    else if s.worker.InEffect? { EffectHeads(s, w, j, away); }
    else if s.worker.Tallying? || s.worker.Finishing? { TallyHeads(s, w, j, away); }
    else { EndHeads(s, w, j, away); }
    hide TurnsAway, Decide, WorkerNext;
  }

  /** The web process brings no doubt: whatever is uncertain afterwards was uncertain before. */
  lemma WebKeepsUncertain(s: State, w: WebStep, i: ItemId)
    requires i in WebNext(s, w).items && WebNext(s, w).items[i].status == ItemUncertain
    ensures i in s.items && s.items[i] == WebNext(s, w).items[i]
  {
    hide Allowed, JobAfter;
  }

  lemma WebBringsNoDoubt(s: State, w: WebStep, j: JobId)
    requires HasItem(WebNext(s, w), j, ItemUncertain)
    ensures HasItem(s, j, ItemUncertain)
  {
    hide WebNext;
    var t := WebNext(s, w);
    var i :| i in t.items && t.items[i].job == j && t.items[i].status == ItemUncertain;
    WebKeepsUncertain(s, w, i);
  }

  lemma WebKeepsWorker(s: State, w: WebStep)
    ensures WebNext(s, w).worker == s.worker
  {
    hide Allowed;
  }

  lemma WebHeads(s: State, w: WebStep, j: JobId, away: bool)
    requires Heads(s, j, away)
    ensures Heads(WebNext(s, w), j, away)
  {
    WebKeepsWorker(s, w);
    if HasItem(WebNext(s, w), j, ItemUncertain) { WebBringsNoDoubt(s, w, j); }
    hide WebNext, HasItem;
  }

  // ----- runs -----

  /** In action i the worker claims j, and until k it serves nothing else. */
  ghost predicate Serves(states: seq<State>, steps: seq<Step>, j: JobId, i: nat, k: nat) {
    IsRun(states, steps) && i < k <= |steps| && steps[i] == Worker(Claim(j)) && states[i].worker == Idle &&
    forall n :: i < n <= k ==> JobOf(states[n].worker) == Some(j)
  }

  predicate TurnedAwayAt(states: seq<State>, steps: seq<Step>, m: nat)
    requires |states| == |steps| + 1 && m < |steps|
  {
    steps[m].Worker? && TurnsAway(states[m], steps[m].step)
  }

  ghost predicate TurnedAway(states: seq<State>, steps: seq<Step>, i: nat, k: nat)
    requires |states| == |steps| + 1 && k <= |steps|
  {
    exists m :: i < m < k && TurnedAwayAt(states, steps, m)
  }

  lemma TurnedAwayGrows(states: seq<State>, steps: seq<Step>, i: nat, n: nat)
    requires |states| == |steps| + 1 && i < n < |steps|
    ensures TurnedAway(states, steps, i, n + 1) <==> TurnedAway(states, steps, i, n) || TurnedAwayAt(states, steps, n)
  {
    hide TurnedAwayAt;
  }

  lemma ClaimHeads(s: State, j: JobId)
    requires s.worker == Idle && JobOf(WorkerNext(s, Claim(j)).worker) == Some(j)
    ensures Heads(WorkerNext(s, Claim(j)), j, false)
  {
  }

  lemma StepHeads(s: State, a: Step, j: JobId, away: bool)
    requires JobOf(s.worker) == Some(j) && JobOf(Next(s, a).worker) == Some(j) && Heads(s, j, away)
    ensures Heads(Next(s, a), j, away || (a.Worker? && TurnsAway(s, a.step)))
  {
    hide Heads, TurnsAway, WorkerNext, WebNext, RecoverTx;
    match a
    case Worker(w) => WorkerHeads(s, w, j, away);
    case Web(w) => WebHeads(s, w, j, away);
    case Crash =>
    case Recover =>
  }

  lemma {:induction false} RunHeads(states: seq<State>, steps: seq<Step>, j: JobId, i: nat, n: nat)
    requires Serves(states, steps, j, i, n)
    ensures Heads(states[n], j, TurnedAway(states, steps, i, n))
  {
    hide Heads, Next, TurnsAway;
    assert Moved(states, steps, n - 1);
    if n == i + 1 {
      assert states[n] == WorkerNext(states[i], Claim(j)) by { ClaimIsNext(states[i], j); }
      ClaimHeads(states[i], j);
      assert !TurnedAway(states, steps, i, n);
    } else {
      RunHeads(states, steps, j, i, n - 1);
      TurnedAwayGrows(states, steps, i, n - 1);
      StepHeads(states[n - 1], steps[n - 1], j, TurnedAway(states, steps, i, n - 1));
    }
  }

  lemma ClaimIsNext(s: State, j: JobId)
    ensures Next(s, Worker(Claim(j))) == WorkerNext(s, Claim(j))
  {
  }

  lemma FinishWrites(s: State)
    requires s.worker.Finishing? && s.worker.job in s.jobs
    ensures var t := Next(s, Worker(FinishJob));
            t.worker == Idle && s.worker.job in t.jobs && t.jobs[s.worker.job].status == s.worker.status
  {
  }

  /** A job that still has an uncertain item when its run writes the verdict is sent to review if and only if no
      check turned the run away since the claim. */
  lemma DoubtIsReviewedUnlessTurnedAway(states: seq<State>, steps: seq<Step>, j: JobId, i: nat, k: nat)
    requires Serves(states, steps, j, i, k) && k < |steps| && states[k].worker.Finishing? && steps[k] == Worker(FinishJob)
    requires j in states[k].jobs && HasItem(states[k], j, ItemUncertain)
    ensures states[k + 1].worker == Idle && j in states[k + 1].jobs
    ensures states[k + 1].jobs[j].status == NeedsReview <==> !TurnedAway(states, steps, i, k)
  {
    hide Next, HasItem, TurnedAway, TurnsAway;
    RunHeads(states, steps, j, i, k);
    assert Moved(states, steps, k) && JobOf(states[k].worker) == Some(j);
    FinishWrites(states[k]);
  }

  /** Every exit at one glance: with an uncertain item the verdict is review at the tally and after an expired
      approval, and nowhere else. */
  lemma OnlyTallyAndExpiryReview(s: State, w: WorkerStep, j: JobId, st: JobStatus)
    requires !s.worker.Finishing? && Decide(s, w).to == Finishing(j, st) && HasItem(s, j, ItemUncertain)
    ensures st == NeedsReview <==>
            (s.worker.Tallying? && w == Tally) || (s.worker.Exiting? && s.worker.status == NeedsReview && w == Skip)
  {
  }

  /** What a step that settles the run's job may write. */
  predicate Settles(s: State, w: WorkerStep, act: Act) {
    act.change.JobTo? && JobOf(s.worker).Some? ==>
      if s.worker.Finishing? then w == FinishJob && act.change.jobStatus == s.worker.status
      else (w == Acquire(AcquireRateLimited) || w == Observe(RateLimited)) && act.change.jobStatus == Queued
  }

  lemma EffectSettles(s: State, w: WorkerStep)
    requires s.worker.InEffect?
    ensures Settles(s, w, Decide(s, w))
  {
    hide WritesAllowed, Confirmation, Overwrites;
  }

  lemma OtherSettles(s: State, w: WorkerStep)
    requires !s.worker.InEffect?
    ensures Settles(s, w, Decide(s, w))
  {
    hide Planned, PendingItems, JournalOf, Applies, WritesAllowed, TallyStatus;
  }

  lemma WorkerSettles(s: State, w: WorkerStep, j: JobId)
    requires EndsWell(s.worker) && JobOf(s.worker) == Some(j) && JobOf(Decide(s, w).to) != Some(j) && j in s.jobs
    ensures var c := Decide(s, w).change;
            Decide(s, w).to == Idle && c.JobTo? && c.job == j &&
            if s.worker.Finishing? then w == FinishJob && c.jobStatus == s.worker.status
            else (w == Acquire(AcquireRateLimited) || w == Observe(RateLimited)) && c.jobStatus == Queued
  {
    hide Decide;
    DecideMoves(s, w);
    if s.worker.InEffect? { EffectSettles(s, w); } else { OtherSettles(s, w); }
  }

  lemma JobToWrites(s: State, w: WorkerStep)
    requires Decide(s, w).change.JobTo? && Decide(s, w).change.job in s.jobs
    ensures var c, t := Decide(s, w).change, WorkerNext(s, w);
            c.job in t.jobs && t.jobs[c.job].status == c.jobStatus
  {
    hide Decide;
  }

  /** The other ways a run ends while its job exists: a rate limit queues the job again, and a death leaves it to
      the restart. */
  lemma HowRunsEnd(s: State, a: Step, j: JobId)
    requires Reachable(s) && JobOf(s.worker) == Some(j) && JobOf(Next(s, a).worker) != Some(j) && j in s.jobs
    ensures var t := Next(s, a);
            if a == Crash then t.worker == Down
            else
              a.Worker? && t.worker == Idle && j in t.jobs &&
              if s.worker.Finishing? then a.step == FinishJob && t.jobs[j].status == s.worker.status
              else (a.step == Acquire(AcquireRateLimited) || a.step == Observe(RateLimited)) && t.jobs[j].status == Queued
  {
    hide WorkerNext, WebNext, Decide, RecoverTx, Reachable;
    assert EndsWell(s.worker) by { AlwaysKept(s); }
    match a
    case Worker(w) =>
      StandsWhereDecided(s, w);
      WorkerSettles(s, w, j);
      JobToWrites(s, w);
    case Web(w) => WebKeepsWorker(s, w);
    case Crash =>
    case Recover =>
  }

  lemma StandsWhereDecided(s: State, w: WorkerStep)
    ensures WorkerNext(s, w).worker == Decide(s, w).to
  {
    hide Decide, Do;
  }

  function Interrupted(s: State): State {
    s.(items := map i | i in s.items ::
         if s.items[i].status == Attempting then s.items[i].(status := ItemUncertain) else s.items[i])
  }

  lemma RestartDecides(s: State, j: JobId)
    requires s.worker == Down && j in s.jobs && s.jobs[j].status == Running
    ensures var t := Next(s, Recover);
            j in t.jobs && (t.jobs[j].status == NeedsReview <==> HasItem(Interrupted(s), j, ItemUncertain))
  {
    hide HasItem;
    assert RecoverTx(s).items == Interrupted(s).items;
  }

  /** After a death the restart reviews an interrupted job exactly if one of its items is in doubt or was being attempted. */
  lemma RestartReviewsDoubt(s: State, j: JobId)
    requires s.worker == Down && j in s.jobs && s.jobs[j].status == Running
    ensures var t := Next(s, Recover);
            j in t.jobs && (t.jobs[j].status == NeedsReview <==> HasItem(s, j, ItemUncertain) || HasItem(s, j, Attempting))
  {
    RestartDecides(s, j);
    hide Next;
    var marked := Interrupted(s);
    if HasItem(s, j, ItemUncertain) || HasItem(s, j, Attempting) {
      var i :| i in s.items && s.items[i].job == j && (s.items[i].status == ItemUncertain || s.items[i].status == Attempting);
      assert i in marked.items && marked.items[i].job == j && marked.items[i].status == ItemUncertain;
    }
  }
}
