/** The accounts' journals under the hosted worker: lawful at every step, and in agreement with the items. */
module HostedEngines {
  import opened Wrappers
  import opened Policy
  import opened Planning
  import opened Ledger
  import opened Hosted
  import opened HostedInvariants
  import opened HostedItems

  /** The hosted service has no suspend or resume: its journals hold action events only. */
  predicate ActionsOnly(h: seq<Event>) {
    forall k :: 0 <= k < |h| ==> !h[k].Halted? && !h[k].Resumed?
  }

  ghost predicate AllLawful(s: State) {
    forall d :: d in s.engines ==> Lawful(s.engines[d]) && ActionsOnly(s.engines[d])
  }

  predicate Permitted(h: seq<Event>, run: Run, row: Row) {
    Permits(Status(Replay(h), row.subject), KindOf(run.kind) == Mute)
  }

  /** Every row that still applies may still begin. */
  predicate RestPermitted(s: State, p: Phase) {
    RunOf(p).Some? ==>
      forall k :: 0 <= k < |RestOf(p)| && RestOf(p)[k] in s.items && Applies(RunOf(p).value, RowsOf(p), s.items[RestOf(p)[k]].row) ==>
        Permitted(History(s, RunOf(p).value.did), RunOf(p).value, s.items[RestOf(p)[k]].row)
  }

  predicate TurnPermitted(s: State, p: Phase) {
    p.AtItem? || p.Reserved? ==>
      Applies(p.turn.run, p.turn.rows, p.turn.row) ==> Permitted(History(s, p.turn.run.did), p.turn.run, p.turn.row)
  }

  predicate Belongs(h: seq<Event>, n: nat, subject: Did, kind: Kind) {
    n < |Replay(h).attempts| && Replay(h).attempts[n].did == subject && Replay(h).attempts[n].kind == kind
  }

  /** The journal's last word matches what the worker last did. */
  predicate StageAt(s: State, p: Phase) {
    p.InEffect? ==>
      var h, t := History(s, p.turn.run.did), p.turn;
      var kind := KindOf(t.run.kind);
      Belongs(h, p.attempt, t.row.subject, kind) &&
      (p.stage.Journalled? || p.stage.Marked? || p.stage.Gated? ==> h != [] && h[|h| - 1] == Begun(t.row.subject, kind, p.attempt)) &&
      (p.stage.Requested? || p.stage.ReadBack? ==> h != [] && h[|h| - 1] == Sent(t.row.subject, kind, p.attempt))
  }

  function DidOf(s: State, i: ItemId): Did
    requires i in s.items && s.items[i].job in s.jobs
  {
    s.jobs[s.items[i].job].did
  }

  predicate AttemptAt(s: State, i: ItemId)
    requires i in s.items
  {
    s.items[i].attempt.Some? ==>
      s.items[i].job in s.jobs &&
      Belongs(History(s, DidOf(s, i)), s.items[i].attempt.value, s.items[i].row.subject, KindOf(s.jobs[s.items[i].job].kind))
  }

  /** An item's attempt is its own. */
  ghost predicate OwnAttempts(s: State) {
    forall i, k ::
      i in s.items && k in s.items && i != k && s.items[i].attempt.Some? && s.items[k].attempt.Some? &&
      s.items[i].job in s.jobs && s.items[k].job in s.jobs && DidOf(s, i) == DidOf(s, k) ==>
        s.items[i].attempt != s.items[k].attempt
  }

  predicate NobodyElses(s: State, p: Phase) {
    p.InEffect? ==>
      forall i :: i in s.items && s.items[i].job in s.jobs && DidOf(s, i) == p.turn.run.did && i != p.turn.item ==>
        s.items[i].attempt != Some(p.attempt)
  }

  ghost predicate EnginesKept(s: State) {
    AllLawful(s) && RestPermitted(s, s.worker) && TurnPermitted(s, s.worker) && StageAt(s, s.worker) &&
    (forall i :: i in s.items ==> AttemptAt(s, i)) && OwnAttempts(s) && NobodyElses(s, s.worker)
  }

  // ----- the steps -----

  /** What a step may write to a journal or send, and when. */
  predicate JournalMove(s: State, act: Act) {
    var p := s.worker;
    (act.change.JournalTo? ==>
       TurnOf(p).Some? && act.change.did == TurnOf(p).value.run.did &&
       ((p.Reserved? && act.change.event == Opening(s, p.turn)) ||
        (p.InEffect? && exists ok :: act.change.event == Closing(p.turn, p.attempt, ok) && (ok ==> p.stage == ReadBack(true))))) &&
    (act.change.Remotely? ==>
       p.InEffect? && p.stage.Gated? &&
       act.change.write == Write(p.turn.item, p.turn.run.job, p.turn.run.did, p.turn.row, KindOf(p.turn.run.kind), p.effect, p.attempt)) &&
    (act.change.ItemTo? ==> act.change.attempt.None? || (p.InEffect? && act.change.attempt == Some(p.attempt))) &&
    (act.to.AtItem? || act.to.Reserved? ==>
       (p.Looping? || p.AtItem? || p.Reserved?) && !act.change.JournalTo? && !act.change.Remotely?)
  }

  predicate StageMove(s: State, act: Act) {
    var p, q := s.worker, act.to;
    q.InEffect? ==>
      if p.InEffect? then
        q.turn == p.turn && q.effect == p.effect && q.attempt == p.attempt &&
        (q.stage.Journalled? || q.stage.Marked? || q.stage.Gated? ==>
           (p.stage.Journalled? || p.stage.Marked? || p.stage.Gated?) && !act.change.JournalTo? && !act.change.Remotely?) &&
        (q.stage.Requested? ==> act.change.Remotely? || (p.stage.Requested? && !act.change.JournalTo?)) &&
        (q.stage.ReadBack? ==> (p.stage.Requested? || p.stage.ReadBack?) && !act.change.JournalTo? && !act.change.Remotely?)
      else
        p.Reserved? && q.turn == p.turn && q.effect == p.effect && q.stage.Journalled? && act.change.JournalTo? && act.change.committed &&
        q.attempt == Opening(s, p.turn).attempt
  }

  predicate EngineAct(s: State, act: Act) {
    JournalMove(s, act) && StageMove(s, act)
  }

  lemma EnterEngines(s: State, run: Run, gate: Gate, w: WorkerStep)
    requires s.worker == Entering(run, gate)
    ensures EngineAct(s, Enter(s, run, gate, w))
  {
    hide Planned, PendingItems, JournalOf;
  }

  lemma CheckItemEngines(s: State, t: Turn, point: Point, w: WorkerStep)
    requires s.worker == AtItem(t, point)
    ensures EngineAct(s, CheckItem(s, t, point, w))
  {
    hide Applies, WritesAllowed;
  }

  lemma StartEffectEngines(s: State, t: Turn, e: EffectId, n: nat, stage: Stage, w: WorkerStep)
    requires s.worker == InEffect(t, e, n, stage)
    ensures stage.Journalled? || stage.Marked? || stage.Gated? ==> EngineAct(s, StartEffect(s, t, e, n, stage, w))
  {
    hide Applies, WritesAllowed;
  }

  lemma FinishEffectEngines(s: State, t: Turn, e: EffectId, n: nat, stage: Stage, w: WorkerStep)
    requires s.worker == InEffect(t, e, n, stage)
    ensures EngineAct(s, FinishEffect(s, t, e, n, stage, w))
  {
    hide Applies, Confirmation;
  }

  lemma CatchEffectEngines(s: State, t: Turn, e: EffectId, n: nat, stage: Stage, w: WorkerStep)
    requires s.worker == InEffect(t, e, n, stage)
    ensures EngineAct(s, CatchEffect(s, t, e, n, stage, w))
  {
    hide Applies;
  }

  lemma RefuseEffectEngines(s: State, t: Turn, e: EffectId, n: nat, stage: Stage, w: WorkerStep)
    requires s.worker == InEffect(t, e, n, stage)
    ensures EngineAct(s, RefuseEffect(s, t, e, n, stage, w))
  {
    hide Applies;
  }

  lemma OtherEngines(s: State, w: WorkerStep)
    requires !s.worker.Entering? && !s.worker.AtItem? && !s.worker.InEffect? && w != Throw
    ensures EngineAct(s, Decide(s, w))
  {
    hide Applies, HasItem, Opening;
  }

  lemma StillEngines(s: State, w: WorkerStep)
    requires w == Throw && (Throwing(s.worker).Some? || s.worker.Down? || s.worker.Idle?)
    ensures EngineAct(s, Decide(s, w))
  {
  }

  lemma DecideEngines(s: State, w: WorkerStep)
    ensures EngineAct(s, Decide(s, w))
  {
    hide EngineAct;
    if w == Throw && (Throwing(s.worker).Some? || s.worker.Down? || s.worker.Idle?) {
      StillEngines(s, w);
    } else {
      hide Enter, CheckItem, StartEffect, FinishEffect, CatchEffect, RefuseEffect, HasItem;
      match s.worker
      case Entering(run, gate) => EnterEngines(s, run, gate, w);
      case AtItem(t, point) => CheckItemEngines(s, t, point, w);
      case InEffect(t, e, n, stage) =>
        StartEffectEngines(s, t, e, n, stage, w);
        FinishEffectEngines(s, t, e, n, stage, w);
        CatchEffectEngines(s, t, e, n, stage, w);
        RefuseEffectEngines(s, t, e, n, stage, w);
      case _ => OtherEngines(s, w);
    }
  }

  // ----- histories -----

  /** The event a step adds to an account's history, if any. */
  function Added(c: Change): Option<Event> {
    if c.JournalTo? && c.committed then Some(c.event)
    else if c.Remotely? then Some(Sent(c.write.row.subject, c.write.kind, c.write.attempt))
    else None
  }

  function AddedFor(c: Change): Did {
    if c.JournalTo? then c.did else if c.Remotely? then c.write.did else ""
  }

  predicate TookEngines(s: State, act: Act, t: State) {
    t.worker == act.to &&
    t.engines == if Added(act.change).Some? then
                   s.engines[AddedFor(act.change) := History(s, AddedFor(act.change)) + [Added(act.change).value]]
                 else s.engines
  }

  lemma WorkerTakesEngines(s: State, w: WorkerStep)
    ensures TookEngines(s, Decide(s, w), WorkerNext(s, w))
  {
    hide Decide;
  }

  predicate Grows(h: seq<Event>, k: seq<Event>) {
    k == h || (|k| == |h| + 1 && k[..|h|] == h)
  }

  lemma BelongsGrows(h: seq<Event>, k: seq<Event>, n: nat, subject: Did, kind: Kind)
    requires Grows(h, k) && Belongs(h, n, subject, kind)
    ensures Belongs(k, n, subject, kind)
  {
    if k != h {
      assert k == h + [k[|h|]];
      ReplayAppend(h, k[|h|]);
    }
  }

  lemma HistoriesGrow(s: State, act: Act, t: State, d: Did)
    requires TookEngines(s, act, t)
    ensures Grows(History(s, d), History(t, d))
    ensures History(t, d) != History(s, d) ==> Added(act.change).Some? && d == AddedFor(act.change)
  {
  }

  lemma StatusElsewhere(h: seq<Event>, e: Event, d: Did)
    requires e.did != d
    ensures Status(Replay(h + [e]), d) == Status(Replay(h), d)
  {
    ReplayAppend(h, e);
  }

  /** Whatever the worker journals or sends is lawful at that point. */
  lemma EventIsLawful(s: State, act: Act)
    requires TurnAt(s, s.worker) && EnginesKept(s) && EngineAct(s, act) && Added(act.change).Some?
    ensures LawfulStep(History(s, AddedFor(act.change)), Added(act.change).value)
    ensures TurnOf(s.worker).Some? && AddedFor(act.change) == TurnOf(s.worker).value.run.did
    ensures Added(act.change).value.did == TurnOf(s.worker).value.row.subject
    ensures !Added(act.change).value.Halted? && !Added(act.change).value.Resumed?
  {
    hide StageMove, RestPermitted, Lawful, OwnAttempts, NobodyElses, AttemptAt;
  }

  lemma HistoryLawful(s: State, d: Did)
    requires AllLawful(s)
    ensures Lawful(History(s, d)) && ActionsOnly(History(s, d))
  {
  }

  lemma TookKeepsLawful(s: State, act: Act, t: State)
    requires TurnAt(s, s.worker) && EnginesKept(s) && EngineAct(s, act) && TookEngines(s, act, t)
    ensures AllLawful(t)
  {
    if Added(act.change).Some? {
      var d := AddedFor(act.change);
      EventIsLawful(s, act);
      HistoryLawful(s, d);
      LawfulAppend(History(s, d), Added(act.change).value);
    }
    hide Lawful, EngineAct, LawfulStep;
  }

  // ----- permission for what is still to come -----

  datatype Inputs = Inputs(decision: Decision, observed: Remote, overrides: Overrides, followedReview: bool)

  /** Whatever a preview plans against a journal permits what it proposes. */
  lemma PreviewsPermit(plans: map<Did, Inputs>, j: Ledger.Journal)
    requires forall d :: d in plans ==> plans[d].decision.subject == d
    ensures Planned(map d | d in plans ::
                      PlanAction(plans[d].decision, plans[d].observed, Status(j, d), plans[d].overrides, plans[d].followedReview), j)
  {
    forall d | d in plans
      ensures var row := PlanAction(plans[d].decision, plans[d].observed, Status(j, d), plans[d].overrides, plans[d].followedReview);
              row.subject == d &&
              (row.action == MuteAction || row.action == FollowReviewCandidate ==> Permits(Status(j, d), true)) &&
              (row.action == ReleaseCandidate ==> Permits(Status(j, d), false))
    {
      var p := plans[d];
      MutePlannedExactly(p.decision, p.observed, Status(j, d), p.overrides, p.followedReview);
      ReleasePlannedExactly(p.decision, p.observed, Status(j, d), p.overrides, p.followedReview);
    }
  }

  /** A planned row that applies has the ledger's permission. */
  lemma PlannedPermits(rows: map<Did, Row>, h: seq<Event>, run: Run, row: Row)
    requires Planned(rows, Replay(h)) && Applies(run, rows, row)
    ensures Permitted(h, run, row)
  {
    assert row.subject in rows;
  }

  /** A step's event leaves every other subject's permission alone. */
  lemma PermissionElsewhere(s: State, act: Act, t: State, d: Did, run: Run, row: Row)
    requires TurnAt(s, s.worker) && EnginesKept(s) && EngineAct(s, act) && TookEngines(s, act, t)
    requires Permitted(History(s, d), run, row)
    requires Added(act.change).Some? ==> TurnOf(s.worker).Some? && row.subject != TurnOf(s.worker).value.row.subject
    ensures Permitted(History(t, d), run, row)
  {
    HistoriesGrow(s, act, t, d);
    if History(t, d) != History(s, d) {
      EventIsLawful(s, act);
      StatusElsewhere(History(s, d), Added(act.change).value, row.subject);
    }
    hide EnginesKept, EngineAct, TurnAt;
  }

  lemma RestStaysPermitted(s: State, act: Act, t: State, i: ItemId)
    requires OneItemPerSubject(s) && RestAt(s, s.worker) && TurnAt(s, s.worker) && EnginesKept(s)
    requires EngineAct(s, act) && TookEngines(s, act, t)
    requires RunOf(s.worker).Some? && RunOf(act.to) == RunOf(s.worker) && RowsOf(act.to) == RowsOf(s.worker)
    requires exists k :: 0 <= k < |RestOf(s.worker)| && RestOf(s.worker)[k] == i
    requires i in s.items && Applies(RunOf(s.worker).value, RowsOf(s.worker), s.items[i].row)
    ensures Permitted(History(t, RunOf(s.worker).value.did), RunOf(s.worker).value, s.items[i].row)
  {
    var run := RunOf(s.worker).value;
    assert Permitted(History(s, run.did), run, s.items[i].row);
    hide Applies, EnginesKept, EngineAct;
    if TurnOf(s.worker).Some? {
      assert i != TurnOf(s.worker).value.item && s.items[i].job == run.job;
      assert s.items[i].row.subject != TurnOf(s.worker).value.row.subject;
    } else {
      assert Added(act.change).None? by { NoTurnNoEvent(s, act); }
    }
    PermissionElsewhere(s, act, t, run.did, run, s.items[i].row);
  }

  lemma NoTurnNoEvent(s: State, act: Act)
    requires EngineAct(s, act) && TurnOf(s.worker).None?
    ensures Added(act.change).None?
  {
  }

  lemma TookKeepsRestPermitted(s: State, act: Act, t: State)
    requires OneItemPerSubject(s) && RestAt(s, s.worker) && TurnAt(s, s.worker) && EnginesKept(s) && SameShape(s, t)
    requires ItemMove(s, act) && EngineAct(s, act) && TookEngines(s, act, t)
    ensures RestPermitted(t, t.worker)
  {
    var p := act.to;
    if RunOf(p).Some? {
      forall k | 0 <= k < |RestOf(p)| && RestOf(p)[k] in t.items && Applies(RunOf(p).value, RowsOf(p), t.items[RestOf(p)[k]].row)
        ensures Permitted(History(t, RunOf(p).value.did), RunOf(p).value, t.items[RestOf(p)[k]].row)
      {
        var i := RestOf(p)[k];
        assert t.items[i].row == s.items[i].row;
        if FirstLoop(s, act) {
          PlannedPermits(p.rows, History(s, p.run.did), p.run, s.items[i].row);
        } else {
          SameLoop(s, act, k);
          RestStaysPermitted(s, act, t, i);
        }
      }
    }
    hide *;
  }

  lemma SameLoop(s: State, act: Act, k: nat)
    requires ItemMove(s, act) && !FirstLoop(s, act) && k < |RestOf(act.to)|
    ensures RunOf(s.worker).Some? && RunOf(act.to) == RunOf(s.worker) && RowsOf(act.to) == RowsOf(s.worker)
    ensures exists l :: 0 <= l < |RestOf(s.worker)| && RestOf(s.worker)[l] == RestOf(act.to)[k]
  {
    hide Applies;
    if NewTurn(s, act) {
      assert RestOf(s.worker)[k + 1] == RestOf(act.to)[k];
    } else {
      assert RestOf(s.worker)[k] == RestOf(act.to)[k];
    }
  }

  lemma TookKeepsTurnPermitted(s: State, act: Act, t: State)
    requires RestAt(s, s.worker) && EnginesKept(s) && ItemMove(s, act) && EngineAct(s, act) && TookEngines(s, act, t)
    ensures TurnPermitted(t, t.worker)
  {
    hide Applies, Permitted;
    if act.to.AtItem? || act.to.Reserved? {
      assert t.engines == s.engines;
      if NewTurn(s, act) {
        assert RestOf(s.worker)[0] == act.to.turn.item;
      }
    }
  }

  // ----- attempts -----

  lemma FreshAttempt(h: seq<Event>, subject: Did, kind: Kind)
    ensures var n := |Replay(h).attempts|; Belongs(h + [Begun(subject, kind, n)], n, subject, kind)
  {
    ReplayAppend(h, Begun(subject, kind, |Replay(h).attempts|));
  }

  lemma TookKeepsStage(s: State, act: Act, t: State)
    requires TurnAt(s, s.worker) && EnginesKept(s) && EngineAct(s, act) && TookEngines(s, act, t)
    ensures StageAt(t, t.worker)
  {
    if act.to.InEffect? {
      var d := act.to.turn.run.did;
      var subject, kind := act.to.turn.row.subject, KindOf(act.to.turn.run.kind);
      HistoriesGrow(s, act, t, d);
      if s.worker.InEffect? {
        BelongsGrows(History(s, d), History(t, d), act.to.attempt, subject, kind);
      } else {
        FreshAttempt(History(s, d), subject, kind);
      }
      hide Belongs, Replay, LawfulStep, Lawful, RestPermitted, TurnPermitted, OwnAttempts, NobodyElses, AttemptAt;
    }
  }

  lemma AttemptStays(s: State, act: Act, t: State, i: ItemId)
    requires Keyed(s) && Live(s) && TurnAt(s, s.worker) && EnginesKept(s) && SameShape(s, t)
    requires JournalMove(s, act) && ItemMove(s, act) && TookItems(s, act, t) && TookEngines(s, act, t) && i in t.items
    ensures AttemptAt(t, i)
  {
    assert ItemKeyed(s, i) && AttemptAt(s, i);
    if t.items[i].attempt.Some? {
      var d := DidOf(s, i);
      HistoriesGrow(s, act, t, d);
      var kind := KindOf(s.jobs[s.items[i].job].kind);
      if t.items[i].attempt != s.items[i].attempt {
        assert act.change.ItemTo? && act.change.item == i;
        assert s.worker.InEffect? && s.worker.turn.run.did == d;
        assert Belongs(History(s, d), s.worker.attempt, s.items[i].row.subject, kind);
      }
      BelongsGrows(History(s, d), History(t, d), t.items[i].attempt.value, s.items[i].row.subject, kind);
    }
    hide *;
  }

  lemma TookKeepsOthers(s: State, act: Act, t: State)
    requires Keyed(s) && Live(s) && TurnAt(s, s.worker) && EnginesKept(s) && SameShape(s, t)
    requires EngineAct(s, act) && ItemMove(s, act) && TookItems(s, act, t) && TookEngines(s, act, t)
    ensures NobodyElses(t, t.worker)
  {
    var q := act.to;
    if q.InEffect? {
      forall i | i in t.items && t.items[i].job in t.jobs && DidOf(t, i) == q.turn.run.did && i != q.turn.item
        ensures t.items[i].attempt != Some(q.attempt)
      {
        NotElsewhere(s, act, t, i);
      }
    }
    hide *;
  }

  lemma NotElsewhere(s: State, act: Act, t: State, i: ItemId)
    requires TurnAt(s, s.worker) && NobodyElses(s, s.worker) && SameShape(s, t) && act.to.InEffect?
    requires EngineAct(s, act) && ItemMove(s, act) && TookItems(s, act, t)
    requires i in t.items && AttemptAt(s, i) && t.items[i].job in t.jobs
    requires DidOf(t, i) == act.to.turn.run.did && i != act.to.turn.item
    ensures t.items[i].attempt != Some(act.to.attempt)
  {
    hide NewTurn, BackToLoop, FirstLoop, StatusAt, Applies;
    assert DidOf(s, i) == act.to.turn.run.did;
    assert t.items[i].attempt == s.items[i].attempt;
  }

  lemma TookKeepsOwn(s: State, act: Act, t: State)
    requires Keyed(s) && Live(s) && TurnAt(s, s.worker) && EnginesKept(s) && SameShape(s, t)
    requires JournalMove(s, act) && ItemMove(s, act) && TookItems(s, act, t)
    ensures OwnAttempts(t)
  {
    forall i, k |
      i in t.items && k in t.items && i != k && t.items[i].attempt.Some? && t.items[k].attempt.Some? &&
      t.items[i].job in t.jobs && t.items[k].job in t.jobs && DidOf(t, i) == DidOf(t, k)
      ensures t.items[i].attempt != t.items[k].attempt
    {
      OwnPair(s, act, t, i, k);
    }
    hide *;
  }

  lemma OwnPair(s: State, act: Act, t: State, i: ItemId, k: ItemId)
    requires Live(s) && TurnAt(s, s.worker) && OwnAttempts(s) && NobodyElses(s, s.worker) && SameShape(s, t)
    requires JournalMove(s, act) && ItemMove(s, act) && TookItems(s, act, t)
    requires i in t.items && k in t.items && i != k && t.items[i].attempt.Some? && t.items[k].attempt.Some?
    requires t.items[i].job in t.jobs && t.items[k].job in t.jobs && DidOf(t, i) == DidOf(t, k)
    ensures t.items[i].attempt != t.items[k].attempt
  {
    hide NewTurn, SameTurn, BackToLoop, FirstLoop, StatusAt, Applies, OnlyOneRuns, SettledAt;
    assert DidOf(s, i) == DidOf(s, k);
    if act.change.ItemTo? && (act.change.item == i || act.change.item == k) {
      assert s.worker.InEffect? && DidOf(s, act.change.item) == s.worker.turn.run.did;
    } else {
      assert t.items[i].attempt == s.items[i].attempt && t.items[k].attempt == s.items[k].attempt;
    }
  }

  lemma WorkerKeepsEngines(s: State, w: WorkerStep)
    requires Keyed(s) && OneItemPerSubject(s) && Live(s) && ItemsKept(s) && EnginesKept(s)
    ensures EnginesKept(WorkerNext(s, w))
  {
    var act, t := Decide(s, w), WorkerNext(s, w);
    DecideItems(s, w);
    DecideEngines(s, w);
    WorkerKeepsShape(s, w);
    WorkerTakesItems(s, w);
    WorkerTakesEngines(s, w);
    hide Decide, WorkerNext, Live, RestAt, TurnAt, AttemptingAt, ItemMove, StatusMove, JournalMove, StageMove, TookItems, TookEngines,
      AllLawful, RestPermitted, TurnPermitted, StageAt, AttemptAt, OwnAttempts, NobodyElses;
    TookKeepsLawful(s, act, t);
    TookKeepsRestPermitted(s, act, t);
    TookKeepsTurnPermitted(s, act, t);
    TookKeepsStage(s, act, t);
    forall i | i in t.items ensures AttemptAt(t, i) { AttemptStays(s, act, t, i); }
    TookKeepsOthers(s, act, t);
    TookKeepsOwn(s, act, t);
  }

  // ----- the web process, crashes and restarts -----

  predicate ItemFramed(s: State, t: State, i: ItemId)
    requires i in t.items
  {
    t.items[i].attempt.Some? ==>
      i in s.items && t.items[i].attempt == s.items[i].attempt && t.items[i].job in s.jobs && t.items[i].job in t.jobs &&
      t.items[i].job == s.items[i].job && t.items[i].row == s.items[i].row &&
      DidOf(t, i) == DidOf(s, i) && s.jobs[t.items[i].job].kind == t.jobs[t.items[i].job].kind &&
      History(t, DidOf(s, i)) == History(s, DidOf(s, i))
  }

  /** Every attempted item and every live run keeps its history. */
  ghost predicate EnginesFramed(s: State, t: State) {
    (t.worker == s.worker || t.worker.Idle? || t.worker.Down?) &&
    (forall d :: d in t.engines ==> d in s.engines && t.engines[d] == s.engines[d]) &&
    (forall i :: i in t.items && i in s.items ==> t.items[i].row == s.items[i].row) &&
    (forall i :: i in t.items ==> ItemFramed(s, t, i)) &&
    (PastPolicyCheck(s.worker) ==> History(t, RunOf(s.worker).value.did) == History(s, RunOf(s.worker).value.did))
  }

  lemma FramedKeepsEngines(s: State, t: State)
    requires RestAt(s, s.worker) && EnginesKept(s) && EnginesFramed(s, t)
    ensures EnginesKept(t)
  {
    hide Lawful, ActionsOnly, Replay, Permits, Applies;
    assert AllLawful(t);
    hide AllLawful;
    forall i | i in t.items ensures AttemptAt(t, i) { assert ItemFramed(s, t, i); assert t.items[i].attempt.Some? ==> AttemptAt(s, i); }
    assert StageAt(t, t.worker) && TurnPermitted(t, t.worker) && RestPermitted(t, t.worker);
    hide AttemptAt, StageAt, TurnPermitted, RestPermitted;
    forall i, k |
      i in t.items && k in t.items && i != k && t.items[i].attempt.Some? && t.items[k].attempt.Some? &&
      t.items[i].job in t.jobs && t.items[k].job in t.jobs && DidOf(t, i) == DidOf(t, k)
      ensures t.items[i].attempt != t.items[k].attempt
    {
      assert ItemFramed(s, t, i) && ItemFramed(s, t, k);
    }
    assert NobodyElses(t, t.worker) by {
      if t.worker.InEffect? {
        forall i | i in t.items && t.items[i].job in t.jobs && DidOf(t, i) == t.worker.turn.run.did && i != t.worker.turn.item
          ensures t.items[i].attempt != Some(t.worker.attempt) { assert ItemFramed(s, t, i); }
      }
    }
  }

  lemma SettingFramesEngines(s: State, w: WebStep)
    requires Keyed(s) && !Rewrites(w)
    ensures EnginesFramed(s, WebNext(s, w))
  {
    WebKeepsShape(s, w);
    hide WebNext, RunOf, PastPolicyCheck;
    forall i | i in WebNext(s, w).items ensures ItemFramed(s, WebNext(s, w), i) { assert ItemKeyed(s, i); }
  }

  lemma ApproveFramesEngines(s: State, w: WebStep, t: State)
    requires Keyed(s) && w.Approve? && HostedInvariants.Added(s, w, t)
    ensures EnginesFramed(s, t)
  {
    hide RunOf, PastPolicyCheck, ItemKeyed, JobKeyed;
  }

  lemma LeftFramesEngines(s: State, did: Did, t: State)
    requires Keyed(s) && Live(s) && did in s.standing && Left(s, did, t)
    ensures EnginesFramed(s, t)
  {
    assert PastPolicyCheck(s.worker) ==> PastDeletionCheck(s.worker) && RunOf(s.worker).value.did != did;
    hide RunOf, PastPolicyCheck, PastDeletionCheck, JobKeyed;
    forall i | i in t.items ensures ItemFramed(s, t, i) { assert ItemKeyed(s, i); }
    hide ItemFramed;
  }

  lemma WebKeepsEngines(s: State, w: WebStep)
    requires Keyed(s) && Live(s) && ItemsKept(s) && EnginesKept(s)
    ensures EnginesKept(WebNext(s, w))
  {
    var t := WebNext(s, w);
    if Allowed(s, w) {
      if w.Approve? { ApproveAdds(s, w); ApproveFramesEngines(s, w, t); }
      else if w.Purge? { PurgeLeaves(s, w.did, w.engineRemoved); LeftFramesEngines(s, w.did, t); }
      else { SettingFramesEngines(s, w); }
      hide *;
      FramedKeepsEngines(s, t);
    }
    hide EnginesKept, Keyed, Live, ItemsKept, Allowed, EnginesFramed;
  }

  /** A restart changes statuses only. */
  lemma RestartFramesEngines(s: State, t: State)
    requires Keyed(s) && SameShape(s, t) && t.engines == s.engines && (t.worker.Idle? || t.worker.Down?)
    requires forall i :: i in s.items ==> t.items[i].attempt == s.items[i].attempt
    ensures EnginesFramed(s, t)
  {
    hide RunOf, PastPolicyCheck, JobKeyed;
    forall i | i in t.items ensures ItemFramed(s, t, i) { assert ItemKeyed(s, i); }
  }

  lemma RecoverKeepsEngines(s: State)
    requires Keyed(s) && ItemsKept(s) && EnginesKept(s)
    ensures EnginesKept(RecoverTx(s))
  {
    RecoverKeepsShape(s);
    RestartFramesEngines(s, RecoverTx(s));
    FramedKeepsEngines(s, RecoverTx(s));
    hide EnginesKept, Keyed, ItemsKept, EnginesFramed;
  }

  lemma CrashKeepsEngines(s: State)
    requires Keyed(s) && ItemsKept(s) && EnginesKept(s)
    ensures EnginesKept(s.(worker := Down))
  {
    RestartFramesEngines(s, s.(worker := Down));
    FramedKeepsEngines(s, s.(worker := Down));
    hide EnginesKept, Keyed, ItemsKept, EnginesFramed;
  }
}
