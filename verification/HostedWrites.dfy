/** Remote requests: each item and each reservation is sent at most once, and only as approved;
    deletion lets at most the request already in flight through. */
module HostedWrites {
  import opened Wrappers
  import opened Policy
  import opened Hosted
  import opened HostedInvariants
  import opened HostedItems

  predicate Written(log: seq<Entry>, i: ItemId) {
    exists k :: 0 <= k < |log| && log[k].Wrote? && log[k].write.item == i
  }

  predicate Spent(log: seq<Entry>, e: EffectId) {
    exists k :: 0 <= k < |log| && log[k].Wrote? && log[k].write.effect == e
  }

  function EffectOf(p: Phase): Option<EffectId> {
    match p
    case Reserved(_, e) => Some(e)
    case BeginFailed(_, e) => Some(e)
    case InEffect(_, e, _, _) => Some(e)
    case _ => None
  }

  predicate UnsentStage(stage: Stage) {
    stage.Journalled? || stage.Marked? || stage.Gated? || stage.Refused? || stage.RefusedClosed? || stage.RefusedReset?
  }

  /** The item at hand has not been requested. */
  predicate Unsent(p: Phase) {
    p.AtItem? || p.Reserved? || p.BeginFailed? || (p.InEffect? && UnsentStage(p.stage))
  }

  predicate WriteKeyed(s: State, w: Write) {
    w.item < s.nextItem && w.effect < s.nextEffect &&
    w.job in s.approvals && s.approvals[w.job].did == w.did && KindOf(s.approvals[w.job].kind) == w.kind && w.row in s.approvals[w.job].rows &&
    (w.item in s.items ==>
       s.items[w.item].attempt == Some(w.attempt) &&
       (s.items[w.item].status == Attempting || s.items[w.item].status == ItemConfirmed || s.items[w.item].status == ItemUncertain)) &&
    (w.effect in s.effects ==> s.effects[w.effect].did == w.did && s.effects[w.effect].status != EffectRefused)
  }

  ghost predicate AllKeyed(s: State) {
    forall k :: 0 <= k < |s.log| && s.log[k].Wrote? ==> WriteKeyed(s, s.log[k].write)
  }

  ghost predicate SentOnce(log: seq<Entry>) {
    forall k, l :: 0 <= k < l < |log| && log[k].Wrote? && log[l].Wrote? ==>
      log[k].write.item != log[l].write.item && log[k].write.effect != log[l].write.effect
  }

  predicate UnsentAt(s: State, p: Phase) {
    (Unsent(p) ==> !Written(s.log, p.turn.item)) &&
    (EffectOf(p).Some? ==>
       EffectOf(p).value < s.nextEffect && EffectOf(p).value in s.effects && s.effects[EffectOf(p).value] == EffectRow(p.turn.run.did, EffectAttempting) &&
       (Unsent(p) ==> !Spent(s.log, EffectOf(p).value)))
  }

  ghost predicate WritesKept(s: State) {
    AllKeyed(s) && SentOnce(s.log) && UnsentAt(s, s.worker)
  }

  /** How a step sends, reserves and closes reservations. */
  predicate WriteMove(s: State, act: Act) {
    var p, q := s.worker, act.to;
    (act.change.Remotely? ==>
       p.InEffect? && p.stage.Gated? && !Unsent(q) &&
       act.change.write == Write(p.turn.item, p.turn.run.job, p.turn.run.did, p.turn.row, KindOf(p.turn.run.kind), p.effect, p.attempt)) &&
    (Unsent(q) ==> (Unsent(p) && q.turn == p.turn) || NewTurn(s, act)) &&
    (act.change.ItemTo? ==>
       TurnOf(p).Some? && act.change.item == TurnOf(p).value.item &&
       (Unsent(p) || (act.change.attempt == Some(p.attempt) && (act.change.status == ItemConfirmed || act.change.status == ItemUncertain)))) &&
    (act.change.EffectTo? ==>
       EffectOf(p) == Some(act.change.effect) && EffectOf(q).None? && (Unsent(p) || act.change.effectStatus != EffectRefused)) &&
    (EffectOf(q).Some? ==>
       (EffectOf(q) == EffectOf(p) && q.turn == p.turn && !act.change.ReserveEffect?) ||
       (p.AtItem? && q.turn == p.turn && act.change == ReserveEffect(p.turn.run.did) && EffectOf(q) == Some(s.nextEffect)))
  }

  lemma EnterWrites(s: State, run: Run, gate: Gate, w: WorkerStep)
    requires s.worker == Entering(run, gate)
    ensures WriteMove(s, Enter(s, run, gate, w))
  {
    hide Planned, PendingItems, JournalOf;
  }

  lemma CheckItemWrites(s: State, t: Turn, point: Point, w: WorkerStep)
    requires s.worker == AtItem(t, point)
    ensures WriteMove(s, CheckItem(s, t, point, w))
  {
    hide Applies, WritesAllowed;
  }

  lemma StartEffectWrites(s: State, t: Turn, e: EffectId, n: nat, stage: Stage, w: WorkerStep)
    requires s.worker == InEffect(t, e, n, stage)
    ensures stage.Journalled? || stage.Marked? || stage.Gated? ==> WriteMove(s, StartEffect(s, t, e, n, stage, w))
  {
    hide WritesAllowed;
  }

  lemma FinishEffectWrites(s: State, t: Turn, e: EffectId, n: nat, stage: Stage, w: WorkerStep)
    requires s.worker == InEffect(t, e, n, stage)
    ensures WriteMove(s, FinishEffect(s, t, e, n, stage, w))
  {
    hide Confirmation;
  }

  lemma CatchEffectWrites(s: State, t: Turn, e: EffectId, n: nat, stage: Stage, w: WorkerStep)
    requires s.worker == InEffect(t, e, n, stage)
    ensures WriteMove(s, CatchEffect(s, t, e, n, stage, w))
  {
  }

  lemma RefuseEffectWrites(s: State, t: Turn, e: EffectId, n: nat, stage: Stage, w: WorkerStep)
    requires s.worker == InEffect(t, e, n, stage)
    ensures stage.Refused? || stage.RefusedClosed? || stage.RefusedReset? ==> WriteMove(s, RefuseEffect(s, t, e, n, stage, w))
  {
  }

  lemma OtherWrites(s: State, w: WorkerStep)
    requires !s.worker.Entering? && !s.worker.AtItem? && !s.worker.InEffect? && w != Throw
    ensures WriteMove(s, Decide(s, w))
  {
    hide HasItem, Opening;
  }

  lemma StillWrites(s: State, w: WorkerStep)
    requires w == Throw && (Throwing(s.worker).Some? || s.worker.Down? || s.worker.Idle?)
    ensures WriteMove(s, Decide(s, w))
  {
  }

  lemma DecideWrites(s: State, w: WorkerStep)
    ensures WriteMove(s, Decide(s, w))
  {
    hide WriteMove;
    if w == Throw && (Throwing(s.worker).Some? || s.worker.Down? || s.worker.Idle?) {
      StillWrites(s, w);
    } else {
      hide Enter, CheckItem, StartEffect, FinishEffect, CatchEffect, RefuseEffect, HasItem;
      match s.worker
      case Entering(run, gate) => EnterWrites(s, run, gate, w);
      case AtItem(t, point) => CheckItemWrites(s, t, point, w);
      case InEffect(t, e, n, stage) =>
        StartEffectWrites(s, t, e, n, stage, w);
        FinishEffectWrites(s, t, e, n, stage, w);
        CatchEffectWrites(s, t, e, n, stage, w);
        RefuseEffectWrites(s, t, e, n, stage, w);
      case _ => OtherWrites(s, w);
    }
  }

  // ----- what a step leaves in the tables -----

  predicate TookWrites(s: State, act: Act, t: State) {
    var c := act.change;
    t.worker == act.to && t.approvals == s.approvals && t.nextItem == s.nextItem &&
    t.nextEffect == (if c.ReserveEffect? then s.nextEffect + 1 else s.nextEffect) &&
    t.effects == (if c.ReserveEffect? then s.effects[s.nextEffect := EffectRow(c.did, EffectAttempting)]
                  else if c.EffectTo? then WithEffect(s.effects, c.effect, c.effectStatus) else s.effects) &&
    (t.log == s.log || (|t.log| == |s.log| + 1 && t.log[..|s.log|] == s.log)) &&
    (c.Remotely? ==> t.log == s.log + [Wrote(c.write)]) &&
    (!c.Remotely? ==> t.log != s.log ==> !t.log[|s.log|].Wrote?)
  }

  lemma WorkerTakesWrites(s: State, w: WorkerStep)
    ensures TookWrites(s, Decide(s, w), WorkerNext(s, w))
  {
    hide Decide;
  }

  lemma KeyedEntryStays(s: State, act: Act, t: State, k: nat)
    requires TurnAt(s, s.worker) && AllKeyed(s) && UnsentAt(s, s.worker) && WriteMove(s, act) && TookWrites(s, act, t) && TookItems(s, act, t)
    requires k < |s.log| && s.log[k].Wrote?
    ensures WriteKeyed(t, s.log[k].write)
  {
    var w := s.log[k].write;
    assert WriteKeyed(s, w);
    assert Written(s.log, w.item) && Spent(s.log, w.effect);
    hide NewTurn;
  }

  lemma NewEntryKeyed(s: State, act: Act, t: State)
    requires Keyed(s) && Live(s) && TurnAt(s, s.worker) && UnsentAt(s, s.worker)
    requires WriteMove(s, act) && TookWrites(s, act, t) && TookItems(s, act, t) && act.change.Remotely?
    ensures WriteKeyed(t, act.change.write)
  {
    var i := s.worker.turn.item;
    assert ItemKeyed(s, i) && JobKeyed(s, s.items[i].job);
    hide NewTurn, Applies, ItemKeyed;
  }

  lemma TookKeepsKeyed(s: State, act: Act, t: State)
    requires Keyed(s) && Live(s) && TurnAt(s, s.worker) && WritesKept(s)
    requires WriteMove(s, act) && TookWrites(s, act, t) && TookItems(s, act, t)
    ensures AllKeyed(t)
  {
    forall k | 0 <= k < |t.log| && t.log[k].Wrote? ensures WriteKeyed(t, t.log[k].write) {
      if k < |s.log| {
        assert t.log[k] == s.log[k];
        KeyedEntryStays(s, act, t, k);
      } else {
        NewEntryKeyed(s, act, t);
      }
    }
    hide *;
  }

  lemma TookKeepsSentOnce(s: State, act: Act, t: State)
    requires WritesKept(s) && WriteMove(s, act) && TookWrites(s, act, t)
    ensures SentOnce(t.log)
  {
    hide NewTurn, AllKeyed;
    forall k, l | 0 <= k < l < |t.log| && t.log[k].Wrote? && t.log[l].Wrote?
      ensures t.log[k].write.item != t.log[l].write.item && t.log[k].write.effect != t.log[l].write.effect
    {
      assert t.log[k] == s.log[k];
      if l < |s.log| {
        assert t.log[l] == s.log[l];
      } else {
        assert !Written(s.log, t.log[l].write.item) && !Spent(s.log, t.log[l].write.effect);
      }
    }
  }

  lemma WrittenEarlier(s: State, act: Act, t: State, i: ItemId)
    requires TookWrites(s, act, t) && !act.change.Remotely? && Written(t.log, i)
    ensures Written(s.log, i)
  {
    var k :| 0 <= k < |t.log| && t.log[k].Wrote? && t.log[k].write.item == i;
    assert t.log[k] == s.log[k];
  }

  lemma SpentEarlier(s: State, act: Act, t: State, e: EffectId)
    requires TookWrites(s, act, t) && !act.change.Remotely? && Spent(t.log, e)
    ensures Spent(s.log, e)
  {
    var k :| 0 <= k < |t.log| && t.log[k].Wrote? && t.log[k].write.effect == e;
    assert t.log[k] == s.log[k];
  }

  /** A pending item was never requested. */
  lemma PendingUnwritten(s: State, i: ItemId)
    requires AllKeyed(s) && i in s.items && s.items[i].status == ItemPending
    ensures !Written(s.log, i)
  {
  }

  lemma UnusedUnspent(s: State)
    requires AllKeyed(s)
    ensures !Spent(s.log, s.nextEffect)
  {
  }

  lemma TookKeepsUnsent(s: State, act: Act, t: State)
    requires Keyed(s) && RestAt(s, s.worker) && WritesKept(s) && WriteMove(s, act) && TookWrites(s, act, t)
    ensures UnsentAt(t, t.worker)
  {
    var q := act.to;
    if Unsent(q) {
      if NewTurn(s, act) {
        assert RestOf(s.worker)[0] == q.turn.item;
        PendingUnwritten(s, q.turn.item);
      }
      if Written(t.log, q.turn.item) { WrittenEarlier(s, act, t, q.turn.item); }
    }
    if EffectOf(q).Some? {
      UnusedUnspent(s);
      if Unsent(q) && Spent(t.log, EffectOf(q).value) { SpentEarlier(s, act, t, EffectOf(q).value); }
    }
    hide AllKeyed, SentOnce, Keyed, RestAt, Written, Spent;
  }

  lemma WorkerKeepsWrites(s: State, w: WorkerStep)
    requires Keyed(s) && Live(s) && ItemsKept(s) && WritesKept(s)
    ensures WritesKept(WorkerNext(s, w))
  {
    var act, t := Decide(s, w), WorkerNext(s, w);
    DecideWrites(s, w);
    WorkerTakesItems(s, w);
    WorkerTakesWrites(s, w);
    hide Decide, WorkerNext, Live, RestAt, TurnAt, AttemptingAt, WriteMove, TookItems, TookWrites, AllKeyed, SentOnce, UnsentAt;
    TookKeepsKeyed(s, act, t);
    TookKeepsSentOnce(s, act, t);
    TookKeepsUnsent(s, act, t);
  }

  // ----- the web process, crashes and restarts -----

  /** At most a note is logged, and what was sent keeps its item, reservation and approval. */
  ghost predicate WritesFramed(s: State, t: State) {
    (t.worker == s.worker || t.worker.Idle? || t.worker.Down?) &&
    (t.log == s.log || (|t.log| == |s.log| + 1 && t.log[..|s.log|] == s.log && !t.log[|s.log|].Wrote?)) &&
    s.nextItem <= t.nextItem && s.nextEffect <= t.nextEffect &&
    (forall j :: j in s.approvals ==> j in t.approvals && t.approvals[j] == s.approvals[j]) &&
    (forall i :: i in t.items && i < s.nextItem ==>
       i in s.items && t.items[i].attempt == s.items[i].attempt &&
       (t.items[i].status == s.items[i].status || (s.items[i].status == Attempting && t.items[i].status == ItemUncertain))) &&
    (forall e :: e in t.effects ==> e in s.effects && t.effects[e] == s.effects[e]) &&
    (PastPolicyCheck(s.worker) && t.worker == s.worker ==>
       forall e :: e in s.effects && s.effects[e].did == RunOf(s.worker).value.did ==> e in t.effects)
  }

  lemma FramedEntry(s: State, t: State, k: nat)
    requires WritesFramed(s, t) && k < |t.log| && t.log[k].Wrote?
    ensures k < |s.log| && t.log[k] == s.log[k]
  {
    assert t.log[..|s.log|] == s.log;
    assert k < |s.log| ==> t.log[k] == t.log[..|s.log|][k];
  }

  lemma FramedKeepsWrites(s: State, t: State)
    requires WritesKept(s) && WritesFramed(s, t)
    ensures WritesKept(t)
  {
    forall k | 0 <= k < |t.log| && t.log[k].Wrote? ensures WriteKeyed(t, t.log[k].write) {
      FramedEntry(s, t, k);
      assert WriteKeyed(s, s.log[k].write);
    }
    forall k, l | 0 <= k < l < |t.log| && t.log[k].Wrote? && t.log[l].Wrote?
      ensures t.log[k].write.item != t.log[l].write.item && t.log[k].write.effect != t.log[l].write.effect {
      FramedEntry(s, t, k);
      FramedEntry(s, t, l);
    }
    FramedKeepsUnsent(s, t);
    hide *;
  }

  lemma FramedKeepsUnsent(s: State, t: State)
    requires UnsentAt(s, s.worker) && WritesFramed(s, t)
    ensures UnsentAt(t, t.worker)
  {
    var p := t.worker;
    if Unsent(p) && Written(t.log, p.turn.item) {
      var k :| 0 <= k < |t.log| && t.log[k].Wrote? && t.log[k].write.item == p.turn.item;
      FramedEntry(s, t, k);
      assert false;
    }
    if EffectOf(p).Some? && Unsent(p) && Spent(t.log, EffectOf(p).value) {
      var k :| 0 <= k < |t.log| && t.log[k].Wrote? && t.log[k].write.effect == EffectOf(p).value;
      FramedEntry(s, t, k);
      assert false;
    }
    assert EffectOf(p).Some? ==> PastPolicyCheck(p);
  }

  lemma SettingFramesWrites(s: State, w: WebStep)
    requires Keyed(s) && !Rewrites(w)
    ensures WritesFramed(s, WebNext(s, w))
  {
    WebKeepsShape(s, w);
    assert WebNext(s, w).log == s.log || WebNext(s, w).log == s.log + [DeletionRequested(w.did)] by { hide Allowed, JobAfter; }
    hide WebNext, RunOf, PastPolicyCheck;
  }

  lemma ApproveFramesWrites(s: State, w: WebStep, t: State)
    requires Keyed(s) && w.Approve? && HostedInvariants.Added(s, w, t)
    ensures WritesFramed(s, t)
  {
    hide RunOf, PastPolicyCheck, ItemKeyed, JobKeyed;
  }

  lemma LeftFramesWrites(s: State, did: Did, t: State)
    requires Live(s) && did in s.standing && Left(s, did, t)
    ensures WritesFramed(s, t)
  {
    assert PastPolicyCheck(s.worker) ==> PastDeletionCheck(s.worker) && RunOf(s.worker).value.did != did;
    hide RunOf, PastPolicyCheck, PastDeletionCheck, LiveAt;
  }

  lemma WebKeepsWrites(s: State, w: WebStep)
    requires Keyed(s) && Live(s) && WritesKept(s)
    ensures WritesKept(WebNext(s, w))
  {
    var t := WebNext(s, w);
    if Allowed(s, w) {
      if w.Approve? { ApproveAdds(s, w); ApproveFramesWrites(s, w, t); }
      else if w.Purge? { PurgeLeaves(s, w.did, w.engineRemoved); LeftFramesWrites(s, w.did, t); }
      else { SettingFramesWrites(s, w); }
      hide *;
      FramedKeepsWrites(s, t);
    }
    hide WritesKept, Keyed, Live, WritesFramed;
  }

  lemma RecoverKeepsWrites(s: State)
    requires Keyed(s) && WritesKept(s)
    ensures WritesKept(RecoverTx(s))
  {
    assert WritesFramed(s, RecoverTx(s));
    FramedKeepsWrites(s, RecoverTx(s));
    hide *;
  }

  lemma CrashKeepsWrites(s: State)
    requires Keyed(s) && WritesKept(s)
    ensures WritesKept(s.(worker := Down))
  {
    assert WritesFramed(s, s.(worker := Down));
    FramedKeepsWrites(s, s.(worker := Down));
    hide *;
  }
}
