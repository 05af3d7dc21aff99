/** What every reachable state of the hosted service keeps. */
module HostedInvariants {
  import opened Wrappers
  import opened Policy
  import opened Hosted

  // ----- tables -----

  predicate JobKeyed(s: State, j: JobId)
    requires j in s.jobs
  {
    var job := s.jobs[j];
    j < s.nextJob && job.policy < s.nextPolicy &&
    (job.policy in s.policies ==> s.policies[job.policy].did == job.did) &&
    j in s.approvals && s.approvals[j].did == job.did && s.approvals[j].kind == job.kind
  }

  predicate ItemKeyed(s: State, i: ItemId)
    requires i in s.items
  {
    i < s.nextItem && s.items[i].job in s.jobs && s.items[i].job in s.approvals && s.items[i].row in s.approvals[s.items[i].job].rows
  }

  /** Keys are never reused, and what an item was approved for never changes. */
  ghost predicate Keyed(s: State) {
    (forall j :: j in s.jobs ==> JobKeyed(s, j)) &&
    (forall i :: i in s.items ==> ItemKeyed(s, i)) &&
    (forall j :: j in s.approvals ==> j < s.nextJob) &&
    (forall p :: p in s.policies ==> p < s.nextPolicy) &&
    (forall e :: e in s.effects ==> e < s.nextEffect)
  }

  ghost predicate OneItemPerSubject(s: State) {
    forall i, k :: i in s.items && k in s.items && i != k && s.items[i].job == s.items[k].job ==>
      s.items[i].row.subject != s.items[k].row.subject
  }

  /** The worker only moves statuses about; it never touches keys or approvals. */
  ghost predicate SameShape(s: State, t: State) {
    (forall j :: j in t.jobs <==> j in s.jobs) && (forall i :: i in t.items <==> i in s.items) && t.policies == s.policies && t.approvals == s.approvals &&
    t.nextJob == s.nextJob && t.nextItem == s.nextItem && t.nextPolicy == s.nextPolicy && s.nextEffect <= t.nextEffect &&
    t.deletions == s.deletions && t.standing == s.standing && t.users == s.users &&
    (forall j :: j in s.jobs ==> t.jobs[j] == s.jobs[j].(status := t.jobs[j].status)) &&
    (forall i :: i in s.items ==> t.items[i].job == s.items[i].job && t.items[i].row == s.items[i].row) &&
    (forall e :: e in t.effects ==> e in s.effects || (e == s.nextEffect && e < t.nextEffect))
  }

  lemma DoKeepsShape(s: State, c: Change)
    ensures SameShape(s, Do(s, c))
  {
  }

  lemma WorkerKeepsShape(s: State, w: WorkerStep)
    ensures SameShape(s, WorkerNext(s, w))
  {
    hide Do, Decide;
    DoKeepsShape(s, Decide(s, w).change);
  }

  lemma RecoverKeepsShape(s: State)
    ensures SameShape(s, RecoverTx(s))
  {
  }

  lemma ShapeKeepsKeyed(s: State, t: State)
    requires Keyed(s) && OneItemPerSubject(s) && SameShape(s, t)
    ensures Keyed(t) && OneItemPerSubject(t)
  {
    forall j | j in t.jobs ensures JobKeyed(t, j) { assert JobKeyed(s, j); }
    forall i | i in t.items ensures ItemKeyed(t, i) { assert ItemKeyed(s, i); }
    forall e | e in t.effects ensures e < t.nextEffect {}
  }

  ghost predicate Added(s: State, w: WebStep, t: State)
    requires w.Approve?
  {
    t.worker == s.worker && t.standing == s.standing && t.deletions == s.deletions && t.engines == s.engines && t.log == s.log &&
    t.policies == s.policies && t.effects == s.effects && t.nextPolicy == s.nextPolicy && t.nextEffect == s.nextEffect &&
    t.nextItem == s.nextItem + |w.rows| && t.nextJob == s.nextJob + 1 && s.nextJob in t.jobs &&
    t.jobs[s.nextJob].did == w.did && t.jobs[s.nextJob].policy == w.policy && t.jobs[s.nextJob].kind == w.kind &&
    t.jobs[s.nextJob].status == Queued &&
    t.approvals == s.approvals[s.nextJob := Approval(w.did, w.kind, w.rows)] &&
    (forall j :: j in t.jobs <==> j in s.jobs || j == s.nextJob) &&
    (forall j :: j in s.jobs ==> j < s.nextJob && t.jobs[j] == s.jobs[j]) &&
    (forall i :: i in s.items ==> s.items[i].job in s.jobs && i in t.items && t.items[i] == s.items[i]) &&
    (forall i :: i in t.items && i !in s.items ==>
       s.nextItem <= i < t.nextItem && t.items[i] == Item(s.nextJob, w.rows[i - s.nextItem], ItemPending, None))
  }

  lemma ApproveAdds(s: State, w: WebStep)
    requires Keyed(s) && w.Approve? && Allowed(s, w)
    ensures Added(s, w, WebNext(s, w))
  {
    forall j | j in s.jobs ensures j < s.nextJob { assert JobKeyed(s, j); }
    forall i | i in s.items ensures s.items[i].job in s.jobs && i < s.nextItem { assert ItemKeyed(s, i); }
    hide JobKeyed, ItemKeyed, Inactive, DistinctSubjects, Expected, WritesAllowed;
  }

  lemma AddedKeepsKeyed(s: State, w: WebStep, t: State)
    requires Keyed(s) && w.Approve? && Added(s, w, t) && w.policy in s.policies && s.policies[w.policy].did == w.did
    ensures Keyed(t)
  {
    forall j | j in t.jobs ensures JobKeyed(t, j) { if j in s.jobs { assert JobKeyed(s, j); } }
    forall i | i in t.items ensures ItemKeyed(t, i) {
      if i in s.items { assert ItemKeyed(s, i) && JobKeyed(s, s.items[i].job); }
    }
  }

  lemma AddedKeepsSubjects(s: State, w: WebStep, t: State)
    requires OneItemPerSubject(s) && w.Approve? && Added(s, w, t) && DistinctSubjects(w.rows)
    ensures OneItemPerSubject(t)
  {
    forall i, k | i in t.items && k in t.items && i != k && t.items[i].job == t.items[k].job
      ensures t.items[i].row.subject != t.items[k].row.subject
    {
      if i !in s.items && k !in s.items {
        assert t.items[i].row == w.rows[i - s.nextItem] && t.items[k].row == w.rows[k - s.nextItem];
      }
    }
  }

  lemma ApproveKeepsKeyed(s: State, w: WebStep)
    requires Keyed(s) && OneItemPerSubject(s) && w.Approve? && Allowed(s, w)
    ensures Keyed(WebNext(s, w)) && OneItemPerSubject(WebNext(s, w))
  {
    ApproveAdds(s, w);
    AddedKeepsKeyed(s, w, WebNext(s, w));
    AddedKeepsSubjects(s, w, WebNext(s, w));
  }

  /** What an erasure leaves. */
  ghost predicate Left(s: State, did: Did, t: State) {
    t.worker == s.worker && t.standing == s.standing - {did} && t.deletions == s.deletions - {did} &&
    t.log == s.log + [Entry.Erased(did, s.nextJob)] && t.approvals == s.approvals &&
    t.nextJob == s.nextJob && t.nextItem == s.nextItem && t.nextPolicy == s.nextPolicy && t.nextEffect == s.nextEffect &&
    (forall p :: p in t.policies <==> p in s.policies && s.policies[p].did != did) &&
    (forall p :: p in t.policies ==> t.policies[p] == s.policies[p]) &&
    (forall j :: j in t.jobs <==> j in s.jobs && s.jobs[j].did != did) &&
    (forall j :: j in t.jobs ==> t.jobs[j] == s.jobs[j]) &&
    (forall i :: i in t.items <==> i in s.items && !(s.items[i].job in s.jobs && s.jobs[s.items[i].job].did == did)) &&
    (forall i :: i in t.items ==> t.items[i] == s.items[i]) &&
    (forall e :: e in t.effects <==> e in s.effects && s.effects[e].did != did) &&
    (forall e :: e in t.effects ==> t.effects[e] == s.effects[e]) &&
    (forall d :: d in t.engines ==> d in s.engines && t.engines[d] == s.engines[d]) &&
    (forall d :: d in s.engines && d != did ==> d in t.engines)
  }

  lemma PurgeLeaves(s: State, did: Did, removed: bool)
    ensures Left(s, did, PurgeTx(s, did, removed))
  {
  }

  lemma PurgeKeepsKeyed(s: State, did: Did, removed: bool)
    requires Keyed(s) && OneItemPerSubject(s)
    ensures Keyed(PurgeTx(s, did, removed)) && OneItemPerSubject(PurgeTx(s, did, removed))
  {
    PurgeLeaves(s, did, removed);
    var t := PurgeTx(s, did, removed);
    hide PurgeTx;
    forall j | j in t.jobs ensures JobKeyed(t, j) { assert JobKeyed(s, j); }
    forall i | i in t.items ensures ItemKeyed(t, i) { assert ItemKeyed(s, i); }
  }

  /** The other web steps leave the items alone and change jobs only in status and the cancel flag. */
  ghost predicate WebShape(s: State, t: State) {
    (forall j :: j in t.jobs <==> j in s.jobs) && t.items == s.items && t.approvals == s.approvals && t.effects == s.effects &&
    t.nextJob == s.nextJob && t.nextItem == s.nextItem && t.nextEffect == s.nextEffect && t.engines == s.engines &&
    s.nextPolicy <= t.nextPolicy && t.worker == s.worker &&
    (forall p :: p in t.policies ==> p < t.nextPolicy) &&
    (forall p :: p in t.policies && p < s.nextPolicy ==> p in s.policies && t.policies[p].did == s.policies[p].did) &&
    (forall j :: j in s.jobs ==> JobShape(s.jobs[j], t.jobs[j]))
  }

  predicate Rewrites(w: WebStep) {
    w.Approve? || w.Purge?
  }

  predicate JobShape(a: Job, b: Job) {
    b == a.(status := b.status, cancel := b.cancel) &&
    (b.status == Running <==> a.status == Running) &&
    (b.status == Completed <==> a.status == Completed) &&
    (b.status == Failed <==> a.status == Failed)
  }

  lemma JobAfterKeepsShape(j: JobId, job: Job, w: WebStep)
    ensures JobShape(job, JobAfter(j, job, w))
  {
  }

  lemma SettingKeepsShape(s: State, w: WebStep)
    requires Keyed(s)
    ensures WebShape(s, SettingTx(s, w))
  {
    forall j | j in s.jobs ensures JobShape(s.jobs[j], JobAfter(j, s.jobs[j], w)) { JobAfterKeepsShape(j, s.jobs[j], w); }
    hide JobAfter, JobKeyed, ItemKeyed;
  }

  lemma WebKeepsShape(s: State, w: WebStep)
    requires Keyed(s) && !Rewrites(w)
    ensures WebShape(s, WebNext(s, w))
  {
    hide Allowed, SettingTx;
    SettingKeepsShape(s, w);
  }

  lemma WebKeepsKeyed(s: State, w: WebStep)
    requires Keyed(s) && OneItemPerSubject(s)
    ensures Keyed(WebNext(s, w)) && OneItemPerSubject(WebNext(s, w))
  {
    hide PurgeTx, ApproveTx, SettingTx, Inactive, DistinctSubjects, WritesAllowed;
    if w.Approve? && Allowed(s, w) {
      ApproveKeepsKeyed(s, w);
    } else if w.Purge? && Allowed(s, w) {
      PurgeKeepsKeyed(s, w.did, w.engineRemoved);
    } else if Allowed(s, w) {
      WebKeepsShape(s, w);
      ShapeKeepsWebKeyed(s, WebNext(s, w));
    }
  }

  lemma ShapeKeepsWebKeyed(s: State, t: State)
    requires Keyed(s) && OneItemPerSubject(s) && WebShape(s, t)
    ensures Keyed(t) && OneItemPerSubject(t)
  {
    forall j | j in t.jobs ensures JobKeyed(t, j) { assert JobKeyed(s, j); }
    forall i | i in t.items ensures ItemKeyed(t, i) { assert ItemKeyed(s, i); }
  }

  // ----- the live run -----

  function TurnOf(p: Phase): Option<Turn> {
    match p
    case AtItem(t, _) => Some(t)
    case Reserved(t, _) => Some(t)
    case BeginFailed(t, _) => Some(t)
    case InEffect(t, _, _, _) => Some(t)
    case _ => None
  }

  function RunOf(p: Phase): Option<Run> {
    match p
    case Entering(run, _) => Some(run)
    case Looping(run, _, _) => Some(run)
    case Breaking(run) => Some(run)
    case Tallying(run) => Some(run)
    case _ => if TurnOf(p).Some? then Some(TurnOf(p).value.run) else None
  }

  function JobOf(p: Phase): Option<JobId> {
    match p
    case Claimed(j) => Some(j)
    case Exiting(j, _) => Some(j)
    case Finishing(j, _) => Some(j)
    case _ => if RunOf(p).Some? then Some(RunOf(p).value.job) else None
  }

  predicate PastDeletionCheck(p: Phase) {
    RunOf(p).Some? && (p.Entering? ==> p.gate != Unchecked)
  }

  predicate PastPolicyCheck(p: Phase) {
    RunOf(p).Some? && (p.Entering? ==> p.gate == Current)
  }

  predicate Describes(run: Run, job: Job) {
    job.did == run.did && job.policy == run.policy && job.revision == run.revision && job.kind == run.kind
  }

  predicate Leaves(status: JobStatus) {
    status != Running && status != Queued
  }

  /** The run's facts about its job. A job erased under the run leaves no policy of its id behind. */
  predicate LiveAt(s: State, p: Phase) {
    (JobOf(p).Some? ==> JobOf(p).value < s.nextJob && (JobOf(p).value in s.jobs ==> s.jobs[JobOf(p).value].status == Running)) &&
    (RunOf(p).Some? ==>
       var run := RunOf(p).value;
       run.policy < s.nextPolicy &&
       (if run.job in s.jobs then Describes(run, s.jobs[run.job]) else run.policy !in s.policies && !PastPolicyCheck(p))) &&
    (p.Exiting? ==> Leaves(p.status)) && (p.Finishing? ==> Leaves(p.status))
  }

  predicate OnlyOneRuns(s: State) {
    forall j :: j in s.jobs && s.jobs[j].status == Running ==> s.worker.Down? || JobOf(s.worker) == Some(j)
  }

  /** Once an account's standing is settled for erasure, no checked run of it has a job left. */
  predicate SettledAt(s: State, p: Phase) {
    PastDeletionCheck(p) && RunOf(p).value.did in s.standing ==> RunOf(p).value.job !in s.jobs
  }

  predicate Live(s: State) {
    LiveAt(s, s.worker) && OnlyOneRuns(s) && SettledAt(s, s.worker) && s.standing <= s.deletions
  }

  /** How a step moves along the run. */
  predicate Moves(s: State, act: Act) {
    var p := s.worker;
    if act.change.JobTo? then
      var j := act.change.job;
      (p.Idle? && act.to == Claimed(j) && j in s.jobs && s.jobs[j].status == Queued && act.change.jobStatus == Running) ||
      (JobOf(p) == Some(j) && act.to.Idle? && act.change.jobStatus != Running)
    else
      (p.Down? ==> act.to.Down?) &&
      (JobOf(act.to) == JobOf(p) || (act.to.Idle? && JobOf(p).Some? && JobOf(p).value !in s.jobs))
  }

  predicate KeepsRun(s: State, act: Act) {
    RunOf(act.to).Some? ==>
      if s.worker.Claimed? then
        act.to.Entering? && act.to.gate == Unchecked && act.to.run.job in s.jobs && Describes(act.to.run, s.jobs[act.to.run.job])
      else
        RunOf(act.to) == RunOf(s.worker) &&
        (PastDeletionCheck(act.to) ==> PastDeletionCheck(s.worker) || RunOf(act.to).value.did !in s.deletions) &&
        (PastPolicyCheck(act.to) ==> PastPolicyCheck(s.worker) || RunOf(act.to).value.policy in s.policies)
  }

  predicate EndsWell(p: Phase) {
    (p.Exiting? ==> Leaves(p.status)) && (p.Finishing? ==> Leaves(p.status))
  }

  predicate GoodMove(s: State, act: Act) {
    Moves(s, act) && KeepsRun(s, act) && EndsWell(act.to)
  }

  lemma EnterMoves(s: State, run: Run, gate: Gate, w: WorkerStep)
    requires s.worker == Entering(run, gate)
    ensures GoodMove(s, Enter(s, run, gate, w))
  {
    hide Planned, PendingItems, JournalOf;
  }

  lemma CheckItemMoves(s: State, t: Turn, point: Point, w: WorkerStep)
    requires s.worker == AtItem(t, point)
    ensures GoodMove(s, CheckItem(s, t, point, w))
  {
    hide Applies, WritesAllowed;
  }

  lemma StartEffectMoves(s: State, t: Turn, e: EffectId, n: nat, stage: Stage, w: WorkerStep)
    requires s.worker == InEffect(t, e, n, stage)
    ensures GoodMove(s, StartEffect(s, t, e, n, stage, w))
  {
    hide WritesAllowed;
  }

  lemma FinishEffectMoves(s: State, t: Turn, e: EffectId, n: nat, stage: Stage, w: WorkerStep)
    requires s.worker == InEffect(t, e, n, stage)
    ensures GoodMove(s, FinishEffect(s, t, e, n, stage, w))
  {
    hide Confirmation;
  }

  lemma CatchEffectMoves(s: State, t: Turn, e: EffectId, n: nat, stage: Stage, w: WorkerStep)
    requires s.worker == InEffect(t, e, n, stage)
    ensures GoodMove(s, CatchEffect(s, t, e, n, stage, w))
  {
  }

  lemma RefuseEffectMoves(s: State, t: Turn, e: EffectId, n: nat, stage: Stage, w: WorkerStep)
    requires s.worker == InEffect(t, e, n, stage)
    ensures GoodMove(s, RefuseEffect(s, t, e, n, stage, w))
  {
  }

  lemma ThrowMoves(s: State)
    requires Throwing(s.worker).Some?
    ensures GoodMove(s, Act(Nothing, Finishing(Throwing(s.worker).value, Failed)))
  {
  }

  lemma OtherMoves(s: State, w: WorkerStep)
    requires !s.worker.Entering? && !s.worker.AtItem? && !s.worker.InEffect? && w != Throw
    requires EndsWell(s.worker)
    ensures GoodMove(s, Decide(s, w))
  {
    hide HasItem, Opening;
  }

  lemma DecideMoves(s: State, w: WorkerStep)
    requires EndsWell(s.worker)
    ensures GoodMove(s, Decide(s, w))
  {
    hide Enter, CheckItem, StartEffect, FinishEffect, CatchEffect, RefuseEffect, HasItem, GoodMove;
    if w == Throw && Throwing(s.worker).Some? {
      ThrowMoves(s);
    } else {
      match s.worker
      case Entering(run, gate) => EnterMoves(s, run, gate, w);
      case AtItem(t, point) => CheckItemMoves(s, t, point, w);
      case InEffect(t, e, n, stage) =>
        StartEffectMoves(s, t, e, n, stage, w);
        FinishEffectMoves(s, t, e, n, stage, w);
        CatchEffectMoves(s, t, e, n, stage, w);
        RefuseEffectMoves(s, t, e, n, stage, w);
      case _ => if w != Throw { OtherMoves(s, w); } else { StaysPut(s, w); }
    }
  }

  lemma StaysPut(s: State, w: WorkerStep)
    requires w == Throw && (s.worker.Down? || s.worker.Idle?)
    ensures Decide(s, w) == Act(Nothing, s.worker) && GoodMove(s, Decide(s, w))
  {
  }

  /** What a worker step does to the tables the run depends on. */
  predicate Took(s: State, act: Act, t: State) {
    t.worker == act.to && t.nextJob == s.nextJob && t.nextPolicy == s.nextPolicy && t.policies == s.policies &&
    t.standing == s.standing && t.deletions == s.deletions &&
    t.jobs == if act.change.JobTo? then WithJob(s.jobs, act.change.job, act.change.jobStatus) else s.jobs
  }

  lemma WorkerTakes(s: State, w: WorkerStep)
    ensures Took(s, Decide(s, w), WorkerNext(s, w))
  {
    hide Decide;
  }

  lemma TookKeepsOne(s: State, act: Act, t: State)
    requires Live(s) && GoodMove(s, act) && Took(s, act, t)
    ensures OnlyOneRuns(t)
  {
    hide KeepsRun;
  }

  lemma TookKeepsJob(s: State, act: Act, t: State)
    requires Live(s) && GoodMove(s, act) && Took(s, act, t)
    requires Keyed(s)
    ensures JobOf(t.worker).Some? ==>
              JobOf(t.worker).value < t.nextJob &&
              (JobOf(t.worker).value in t.jobs ==> t.jobs[JobOf(t.worker).value].status == Running)
  {
    hide KeepsRun;
    assert forall j :: j in s.jobs ==> JobKeyed(s, j);
  }

  lemma TookKeepsRun(s: State, act: Act, t: State)
    requires Keyed(s) && Live(s) && GoodMove(s, act) && Took(s, act, t) && RunOf(t.worker).Some?
    ensures var run := RunOf(t.worker).value;
            run.policy < t.nextPolicy &&
            (if run.job in t.jobs then Describes(run, t.jobs[run.job]) else run.policy !in t.policies && !PastPolicyCheck(t.worker))
    ensures SettledAt(t, t.worker)
  {
    assert forall j :: j in s.jobs ==> JobKeyed(s, j);
    hide RunOf, PastPolicyCheck, PastDeletionCheck;
    assert !act.change.JobTo?;
  }

  lemma WorkerKeepsLive(s: State, w: WorkerStep)
    requires Keyed(s) && Live(s)
    ensures Live(WorkerNext(s, w))
  {
    DecideMoves(s, w);
    WorkerTakes(s, w);
    hide Decide, RunOf, WorkerNext;
    var act, t := Decide(s, w), WorkerNext(s, w);
    TookKeepsOne(s, act, t);
    TookKeepsJob(s, act, t);
    if RunOf(t.worker).Some? { TookKeepsRun(s, act, t); }
  }

  lemma RunHasJob(p: Phase)
    ensures RunOf(p).Some? ==> JobOf(p) == Some(RunOf(p).value.job)
  {
  }

  lemma SettingKeepsLive(s: State, w: WebStep)
    requires Keyed(s) && Live(s) && Allowed(s, w) && !Rewrites(w)
    ensures Live(WebNext(s, w))
  {
    WebKeepsShape(s, w);
    hide RunOf, JobOf, PastDeletionCheck, PastPolicyCheck;
    var t := WebNext(s, w);
    assert t.standing == (if w.CheckStanding? then s.standing + {w.did} else s.standing) && s.deletions <= t.deletions &&
           (w.CheckStanding? ==> w.did in s.deletions && Inactive(s, w.did));
    hide WebNext, Allowed;
  }

  lemma ApproveKeepsLive(s: State, w: WebStep)
    requires Keyed(s) && Live(s) && Allowed(s, w) && w.Approve?
    ensures Live(WebNext(s, w))
  {
    RunHasJob(s.worker);
    ApproveAdds(s, w);
    hide RunOf, JobOf, PastDeletionCheck, PastPolicyCheck, Allowed, WebNext, JobKeyed, ItemKeyed;
  }

  lemma LeftKeepsLive(s: State, did: Did, t: State)
    requires Keyed(s) && Live(s) && did in s.standing && Left(s, did, t)
    ensures Live(t)
  {
    hide RunOf, JobOf;
    assert forall j :: j in s.jobs ==> JobKeyed(s, j);
    if RunOf(s.worker).Some? && RunOf(s.worker).value.job in s.jobs && s.jobs[RunOf(s.worker).value.job].did == did {
      assert RunOf(s.worker).value.did == did && !PastDeletionCheck(s.worker);
    }
  }

  lemma PurgeKeepsLive(s: State, did: Did, removed: bool)
    requires Keyed(s) && Live(s) && did in s.standing
    ensures Live(PurgeTx(s, did, removed))
  {
    PurgeLeaves(s, did, removed);
    LeftKeepsLive(s, did, PurgeTx(s, did, removed));
  }

  lemma WebKeepsLive(s: State, w: WebStep)
    requires Keyed(s) && Live(s)
    ensures Live(WebNext(s, w))
  {
    hide Live, Keyed;
    if Allowed(s, w) {
      if w.Approve? { ApproveKeepsLive(s, w); }
      else if w.Purge? { PurgeKeepsLive(s, w.did, w.engineRemoved); }
      else { SettingKeepsLive(s, w); }
    }
  }

  lemma RecoverKeepsLive(s: State)
    requires Live(s)
    ensures Live(RecoverTx(s))
  {
  }
}
