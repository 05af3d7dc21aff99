/** Deletion racing the worker: between a deletion request and the erasure at most one further
    request leaves for the account, and after the erasure only newly approved jobs act. */
module HostedDeletion {
  import opened Wrappers
  import opened Policy
  import opened Hosted
  import opened HostedInvariants
  import opened HostedItems

  /** Requests sent for an account since its outstanding deletion request, if there is one. */
  function LateWrites(log: seq<Entry>, d: Did): Option<nat> {
    if log == [] then None
    else
      var before := LateWrites(log[..|log| - 1], d);
      match log[|log| - 1]
      case DeletionRequested(e) => if d != e then before else if before.Some? then before else Some(0)
      case Erased(e, _) => if d != e then before else None
      case Wrote(w) => if w.did == d && before.Some? then Some(before.value + 1) else before
      case _ => before
  }

  predicate CommittedStage(stage: Stage) {
    stage.Journalled? || stage.Marked? || stage.Gated?
  }

  /** The worker has passed its last look at the deletion table and has not sent yet. */
  predicate InFlight(p: Phase, d: Did) {
    (p.AtItem? || p.Reserved? || (p.InEffect? && CommittedStage(p.stage))) && p.turn.run.did == d
  }

  ghost predicate LateAtMostOnce(s: State) {
    forall d: Did ::
      (d in s.deletions <==> LateWrites(s.log, d).Some?) &&
      (LateWrites(s.log, d).Some? ==> LateWrites(s.log, d).value + (if InFlight(s.worker, d) then 1 else 0) <= 1)
  }

  /** After an erasure every job, and every request, of that account is one approved later. */
  ghost predicate ErasedStaysErased(s: State) {
    forall k :: 0 <= k < |s.log| && s.log[k].Erased? ==>
      s.log[k].before <= s.nextJob &&
      (forall j :: j in s.jobs && s.jobs[j].did == s.log[k].did ==> s.log[k].before <= j) &&
      (forall l :: k < l < |s.log| && s.log[l].Wrote? && s.log[l].write.did == s.log[k].did ==> s.log[k].before <= s.log[l].write.job)
  }

  /** The bound held at every moment of the past. */
  ghost predicate NeverLateTwice(log: seq<Entry>) {
    forall n: nat, d: Did :: n <= |log| && LateWrites(log[..n], d).Some? ==> LateWrites(log[..n], d).value <= 1
  }

  ghost predicate DeletionKept(s: State) {
    LateAtMostOnce(s) && NeverLateTwice(s.log) && ErasedStaysErased(s)
  }

  lemma NeverLateGrows(log: seq<Entry>, more: seq<Entry>)
    requires NeverLateTwice(log) && (more == log || (|more| == |log| + 1 && more[..|log|] == log))
    requires forall d: Did :: LateWrites(more, d).Some? ==> LateWrites(more, d).value <= 1
    ensures NeverLateTwice(more)
  {
    forall n: nat, d: Did | n <= |more| && LateWrites(more[..n], d).Some? ensures LateWrites(more[..n], d).value <= 1 {
      if n == |more| { assert more[..n] == more; } else { assert more[..n] == log[..n]; }
    }
    hide LateWrites;
  }

  /** How a step gets a request in flight. */
  predicate FlightShape(s: State, act: Act) {
    var p, q := s.worker, act.to;
    (q.AtItem? || q.Reserved? || (q.InEffect? && CommittedStage(q.stage)) ==>
       ((p.AtItem? || p.Reserved? || (p.InEffect? && CommittedStage(p.stage))) && q.turn.run == p.turn.run && !act.change.Remotely?) ||
       (NewTurn(s, act) && q.turn.run.did !in s.deletions)) &&
    (act.change.Remotely? ==>
       p.InEffect? && p.stage.Gated? && act.change.write.did == p.turn.run.did && act.change.write.job == p.turn.run.job)
  }

  lemma EffectFlight(s: State, w: WorkerStep)
    requires s.worker.InEffect?
    ensures FlightShape(s, Decide(s, w))
  {
    hide WritesAllowed, Confirmation, Opening;
  }

  lemma EnterFlight(s: State, w: WorkerStep)
    requires s.worker.Entering?
    ensures FlightShape(s, Decide(s, w))
  {
    hide Planned, PendingItems, JournalOf;
  }

  lemma OtherFlight(s: State, w: WorkerStep)
    requires !s.worker.Entering? && !s.worker.InEffect?
    ensures FlightShape(s, Decide(s, w))
  {
    hide HasItem, Opening, Applies, WritesAllowed;
  }

  lemma DecideFlight(s: State, w: WorkerStep)
    ensures FlightShape(s, Decide(s, w))
  {
    hide Decide, FlightShape;
    if s.worker.InEffect? { EffectFlight(s, w); } else if s.worker.Entering? { EnterFlight(s, w); } else { OtherFlight(s, w); }
  }

  lemma LateAppend(log: seq<Entry>, e: Entry, d: Did)
    ensures LateWrites(log + [e], d) ==
            match e
            case DeletionRequested(x) => if d != x || LateWrites(log, d).Some? then LateWrites(log, d) else Some(0)
            case Erased(x, _) => if d != x then LateWrites(log, d) else None
            case Wrote(w) => if w.did == d && LateWrites(log, d).Some? then Some(LateWrites(log, d).value + 1) else LateWrites(log, d)
            case _ => LateWrites(log, d)
  {
    assert (log + [e])[..|log|] == log;
  }

  /** A step logs a request, a note about an item, or nothing. */
  predicate TookLog(s: State, act: Act, t: State) {
    t.worker == act.to && t.deletions == s.deletions && t.nextJob == s.nextJob &&
    if act.change.Remotely? then t.log == s.log + [Wrote(act.change.write)]
    else t.log == s.log ||
         (|t.log| == |s.log| + 1 && t.log == s.log + [t.log[|s.log|]] && (t.log[|s.log|].Matched? || t.log[|s.log|].Demoted?))
  }

  lemma WorkerTakesLog(s: State, w: WorkerStep)
    ensures TookLog(s, Decide(s, w), WorkerNext(s, w))
  {
    hide Decide;
  }

  lemma TookKeepsLate(s: State, act: Act, t: State, d: Did)
    requires LateAtMostOnce(s) && FlightShape(s, act) && TookLog(s, act, t)
    ensures (d in t.deletions <==> LateWrites(t.log, d).Some?) &&
            (LateWrites(t.log, d).Some? ==> LateWrites(t.log, d).value + (if InFlight(t.worker, d) then 1 else 0) <= 1)
  {
    if t.log != s.log { LateAppend(s.log, t.log[|s.log|], d); }
    assert d in s.deletions <==> LateWrites(s.log, d).Some?;
    hide LateWrites, LateAtMostOnce;
  }

  lemma TookKeepsErased(s: State, act: Act, t: State)
    requires Live(s) && ErasedStaysErased(s) && FlightShape(s, act) && TookLog(s, act, t) && SameShape(s, t)
    ensures ErasedStaysErased(t)
  {
    forall k | 0 <= k < |t.log| && t.log[k].Erased?
      ensures t.log[k].before <= t.nextJob &&
              (forall j :: j in t.jobs && t.jobs[j].did == t.log[k].did ==> t.log[k].before <= j) &&
              (forall l :: k < l < |t.log| && t.log[l].Wrote? && t.log[l].write.did == t.log[k].did ==> t.log[k].before <= t.log[l].write.job)
    {
      assert t.log[k] == s.log[k];
      forall l | k < l < |t.log| && t.log[l].Wrote? && t.log[l].write.did == t.log[k].did ensures t.log[k].before <= t.log[l].write.job {
        if l < |s.log| {
          assert t.log[l] == s.log[l];
        } else {
          assert act.change.Remotely? && Describes(s.worker.turn.run, s.jobs[s.worker.turn.run.job]);
        }
      }
    }
    hide *;
  }

  lemma WorkerKeepsDeletion(s: State, w: WorkerStep)
    requires Live(s) && DeletionKept(s)
    ensures DeletionKept(WorkerNext(s, w))
  {
    var act, t := Decide(s, w), WorkerNext(s, w);
    DecideFlight(s, w);
    WorkerTakesLog(s, w);
    WorkerKeepsShape(s, w);
    hide Decide, WorkerNext, Live, FlightShape, TookLog, SameShape, InFlight, LateWrites, ErasedStaysErased;
    TookKeepsErased(s, act, t);
    forall d: Did
      ensures (d in t.deletions <==> LateWrites(t.log, d).Some?) &&
              (LateWrites(t.log, d).Some? ==> LateWrites(t.log, d).value + (if InFlight(t.worker, d) then 1 else 0) <= 1)
    {
      TookKeepsLate(s, act, t, d);
    }
    NeverLateGrows(s.log, t.log) by { LogGrows(s, act, t); }
  }

  lemma LogGrows(s: State, act: Act, t: State)
    requires TookLog(s, act, t)
    ensures t.log == s.log || (|t.log| == |s.log| + 1 && t.log[..|s.log|] == s.log)
  {
  }

  lemma WebLogGrows(s: State, w: WebStep, t: State)
    requires WebLogs(s, w, t)
    ensures t.log == s.log || (|t.log| == |s.log| + 1 && t.log[..|s.log|] == s.log)
  {
  }

  // ----- the web process -----

  /** Only a deletion request and an erasure touch the deletion table, and each is logged. */
  predicate WebLogs(s: State, w: WebStep, t: State) {
    t.worker == s.worker &&
    if w.RequestDeletion? then t.log == s.log + [DeletionRequested(w.did)] && t.deletions == s.deletions + {w.did}
    else if w.Purge? then t.log == s.log + [Entry.Erased(w.did, s.nextJob)] && t.deletions == s.deletions - {w.did}
    else t.log == s.log && t.deletions == s.deletions
  }

  lemma AllowedWebLogs(s: State, w: WebStep)
    requires Allowed(s, w)
    ensures WebLogs(s, w, WebNext(s, w))
  {
    hide Allowed;
  }

  lemma LogKeepsLate(s: State, w: WebStep, t: State, d: Did)
    requires LateAtMostOnce(s) && WebLogs(s, w, t)
    ensures (d in t.deletions <==> LateWrites(t.log, d).Some?) &&
            (LateWrites(t.log, d).Some? ==> LateWrites(t.log, d).value + (if InFlight(t.worker, d) then 1 else 0) <= 1)
  {
    if w.RequestDeletion? { LateAppend(s.log, DeletionRequested(w.did), d); }
    if w.Purge? { LateAppend(s.log, Entry.Erased(w.did, s.nextJob), d); }
    assert d in s.deletions <==> LateWrites(s.log, d).Some?;
    hide LateWrites, LateAtMostOnce;
  }

  /** Jobs of an erased account are gone, and new jobs are newer. */
  predicate JobsNewer(s: State, w: WebStep, t: State) {
    s.nextJob <= t.nextJob &&
    (forall j :: j in t.jobs ==> j >= s.nextJob || (j in s.jobs && t.jobs[j].did == s.jobs[j].did)) &&
    (w.Purge? ==> forall j :: j in t.jobs && t.jobs[j].did == w.did ==> s.nextJob <= j)
  }

  lemma LogKeepsErased(s: State, w: WebStep, t: State)
    requires ErasedStaysErased(s) && WebLogs(s, w, t) && JobsNewer(s, w, t)
    ensures ErasedStaysErased(t)
  {
    forall k | 0 <= k < |t.log| && t.log[k].Erased?
      ensures t.log[k].before <= t.nextJob &&
              (forall j :: j in t.jobs && t.jobs[j].did == t.log[k].did ==> t.log[k].before <= j) &&
              (forall l :: k < l < |t.log| && t.log[l].Wrote? && t.log[l].write.did == t.log[k].did ==> t.log[k].before <= t.log[l].write.job)
    {
      if k < |s.log| {
        assert t.log[k] == s.log[k];
        assert forall l :: k < l < |t.log| && t.log[l].Wrote? ==> l < |s.log| && t.log[l] == s.log[l];
      }
    }
  }

  lemma WebKeepsDeletion(s: State, w: WebStep)
    requires Keyed(s) && DeletionKept(s)
    ensures DeletionKept(WebNext(s, w))
  {
    var t := WebNext(s, w);
    if Allowed(s, w) {
      AllowedWebLogs(s, w);
      assert JobsNewer(s, w, t) by {
        if w.Approve? { ApproveAdds(s, w); }
        else if w.Purge? { PurgeLeaves(s, w.did, w.engineRemoved); }
        else { WebKeepsShape(s, w); }
        hide WebNext, Keyed;
      }
      hide WebNext, WebLogs, JobsNewer, ErasedStaysErased, LateWrites, InFlight;
      LogKeepsErased(s, w, t);
      forall d: Did
        ensures (d in t.deletions <==> LateWrites(t.log, d).Some?) &&
                (LateWrites(t.log, d).Some? ==> LateWrites(t.log, d).value + (if InFlight(t.worker, d) then 1 else 0) <= 1)
      {
        LogKeepsLate(s, w, t, d);
      }
      NeverLateGrows(s.log, t.log) by { WebLogGrows(s, w, t); }
    }
  }

  lemma RestartKeepsDeletion(s: State, t: State)
    requires DeletionKept(s) && SameShape(s, t) && t.log == s.log && (t.worker.Idle? || t.worker.Down?)
    ensures DeletionKept(t)
  {
    hide LateWrites;
  }

  // ----- reading the bound off a log -----

  lemma {:induction false} LateOutstanding(log: seq<Entry>, m: nat, d: Did)
    requires m < |log| && log[m] == DeletionRequested(d)
    requires forall e :: m < e < |log| && log[e].Erased? ==> log[e].did != d
    ensures LateWrites(log, d).Some?
  {
    if m + 1 < |log| { LateOutstanding(log[..|log| - 1], m, d); }
  }

  lemma {:induction false} LateCounts(log: seq<Entry>, m: nat, k: nat, d: Did)
    requires m < k < |log| && log[m] == DeletionRequested(d) && log[k].Wrote? && log[k].write.did == d
    requires forall e :: m < e < |log| && log[e].Erased? ==> log[e].did != d
    ensures LateWrites(log, d).Some? && LateWrites(log, d).value >= 1
  {
    if k + 1 == |log| {
      LateOutstanding(log[..k], m, d);
    } else {
      LateCounts(log[..|log| - 1], m, k, d);
    }
  }

  lemma TwoLate(log: seq<Entry>, m: nat, k: nat, l: nat, d: Did)
    requires m < k < l < |log| && log[m] == DeletionRequested(d)
    requires log[k].Wrote? && log[k].write.did == d && log[l].Wrote? && log[l].write.did == d
    requires forall e :: m < e < l && log[e].Erased? ==> log[e].did != d
    ensures LateWrites(log[..l + 1], d).Some? && LateWrites(log[..l + 1], d).value >= 2
  {
    LateCounts(log[..l], m, k, d);
    LateAppend(log[..l], log[l], d);
    assert log[..l + 1] == log[..l] + [log[l]];
  }

  /** Two requests for an account after its deletion request always have an erasure between. */
  lemma SecondWriteNeedsErasure(log: seq<Entry>, m: nat, k: nat, l: nat, d: Did)
    requires NeverLateTwice(log) && m < k < l < |log| && log[m] == DeletionRequested(d)
    requires log[k].Wrote? && log[k].write.did == d && log[l].Wrote? && log[l].write.did == d
    ensures exists e :: m < e < l && log[e].Erased? && log[e].did == d
  {
    if forall e :: m < e < l && log[e].Erased? ==> log[e].did != d {
      TwoLate(log, m, k, l, d);
    }
  }
}
