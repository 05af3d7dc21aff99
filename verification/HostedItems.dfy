/** The item at hand and the items still to come, through every step. */
module HostedItems {
  import opened Wrappers
  import opened Policy
  import opened Planning
  import opened Hosted
  import opened HostedInvariants

  function RestOf(p: Phase): seq<ItemId> {
    if p.Looping? then p.rest else if TurnOf(p).Some? then TurnOf(p).value.rest else []
  }

  function RowsOf(p: Phase): map<Did, Row> {
    if p.Looping? then p.rows else if TurnOf(p).Some? then TurnOf(p).value.rows else map[]
  }

  /** The items still to come are distinct, pending and of the run's job. */
  predicate RestAt(s: State, p: Phase) {
    RunOf(p).Some? ==> PendingItems(s, RunOf(p).value.job, RestOf(p))
  }

  predicate StatusAt(p: Phase, item: Item) {
    p.InEffect? && !p.stage.Journalled? ==>
      item.attempt == Some(p.attempt) &&
      match p.stage
      case Journalled => true
      case Marked | Gated | Requested | ReadBack(_) | Closed(_) | Refused | RefusedClosed => item.status == Attempting
      case Recorded(ok) => item.status == if ok then ItemConfirmed else ItemUncertain
      case Caught | CaughtClosed => item.status == Attempting || item.status == ItemConfirmed || item.status == ItemUncertain
      case CaughtRecorded => item.status == ItemUncertain
      case RefusedReset => item.status == ItemPending
  }

  predicate Untouched(p: Phase) {
    p.AtItem? || p.Reserved? || p.BeginFailed? || (p.InEffect? && p.stage.Journalled?)
  }

  predicate Checked(p: Phase) {
    TurnOf(p).Some? && (p.AtItem? ==> p.point.Unchanged?)
  }

  /** The item at hand is the run's, is what the turn says, and stands as the phase says. */
  predicate TurnAt(s: State, p: Phase) {
    TurnOf(p).Some? ==>
      var t := TurnOf(p).value;
      t.item in s.items && s.items[t.item].job == t.run.job && s.items[t.item].row == t.row &&
      (Untouched(p) ==> s.items[t.item].status == ItemPending) &&
      StatusAt(p, s.items[t.item]) &&
      (forall k :: 0 <= k < |t.rest| ==> t.rest[k] != t.item) &&
      (Checked(p) ==> Applies(t.run, t.rows, t.row))
  }

  /** An item is left in mid-attempt only by the effect at hand, by a run that died, or by one that failed. */
  predicate Excused(status: JobStatus, p: Phase, j: JobId, i: ItemId) {
    status == Failed || (status == Running && (p.Down? || p == Finishing(j, Failed) || (p.InEffect? && p.turn.item == i)))
  }

  predicate AttemptingAt(s: State, p: Phase) {
    forall i :: i in s.items && s.items[i].status == Attempting && s.items[i].job in s.jobs ==>
      Excused(s.jobs[s.items[i].job].status, p, s.items[i].job, i)
  }

  predicate ItemsKept(s: State) {
    RestAt(s, s.worker) && TurnAt(s, s.worker) && AttemptingAt(s, s.worker)
  }

  function ItemAfter(s: State, c: Change, i: ItemId): Item
    requires i in s.items
  {
    if c.ItemTo? && c.item == i then s.items[i].(status := c.status, attempt := c.attempt) else s.items[i]
  }

  predicate SameTurn(s: State, act: Act) {
    TurnOf(act.to).Some? && TurnOf(act.to) == TurnOf(s.worker) && !act.change.SkipPending? &&
    (Untouched(act.to) ==> Untouched(s.worker) && !act.change.ItemTo?) &&
    (Checked(act.to) ==> Checked(s.worker) || Applies(act.to.turn.run, act.to.turn.rows, act.to.turn.row))
  }

  predicate NewTurn(s: State, act: Act) {
    s.worker.Looping? && act.change.Nothing? && s.worker.rest != [] && s.worker.rest[0] in s.items &&
    act.to == AtItem(Turn(s.worker.run, s.worker.rows, s.worker.rest[0], s.items[s.worker.rest[0]].row, s.worker.rest[1..]), Undeleted)
  }

  predicate BackToLoop(s: State, act: Act) {
    act.to.Looping? && !act.change.SkipPending? && TurnOf(s.worker).Some? &&
    act.to == Looping(TurnOf(s.worker).value.run, TurnOf(s.worker).value.rows, TurnOf(s.worker).value.rest) &&
    (s.worker.InEffect? ==> s.worker.stage.Recorded? || s.worker.stage.CaughtRecorded?)
  }

  predicate FirstLoop(s: State, act: Act) {
    s.worker.Entering? && act.change.Nothing? && act.to.Looping? && act.to.run == s.worker.run &&
    PendingItems(s, act.to.run.job, act.to.rest) && Planned(act.to.rows, JournalOf(s, act.to.run.did))
  }

  /** How a step changes the item at hand and the items still to come. */
  predicate ItemMove(s: State, act: Act) {
    (act.change.ItemTo? ==> TurnOf(s.worker).Some? && act.change.item == TurnOf(s.worker).value.item &&
                            (act.change.status == Attempting ==> act.to.InEffect?)) &&
    (TurnOf(act.to).Some? ==> SameTurn(s, act) || NewTurn(s, act)) &&
    (act.to.Looping? ==> act == Act(Nothing, s.worker) || BackToLoop(s, act) || FirstLoop(s, act))
  }

  /** The item at hand stands as the new phase says, and an effect is left only when it is recorded or failed. */
  predicate StatusMove(s: State, act: Act) {
    (act.to.InEffect? ==> act.to.turn.item in s.items && StatusAt(act.to, ItemAfter(s, act.change, act.to.turn.item))) &&
    (s.worker.InEffect? && !act.to.InEffect? ==>
       act.to == Finishing(s.worker.turn.run.job, Failed) ||
       s.worker.stage.Recorded? || s.worker.stage.CaughtRecorded? || s.worker.stage.RefusedReset?) &&
    (s.worker.Finishing? ==>
       act == Act(JobTo(s.worker.job, s.worker.status), Idle) ||
       (act.change.Nothing? && (act.to == s.worker || act.to == Finishing(s.worker.job, Failed))))
  }

  predicate ItemAct(s: State, act: Act) {
    ItemMove(s, act) && StatusMove(s, act)
  }

  lemma EnterItems(s: State, run: Run, gate: Gate, w: WorkerStep)
    requires s.worker == Entering(run, gate)
    ensures ItemAct(s, Enter(s, run, gate, w))
  {
    hide Planned, PendingItems, JournalOf;
  }

  lemma CheckItemItems(s: State, t: Turn, point: Point, w: WorkerStep)
    requires s.worker == AtItem(t, point)
    ensures ItemAct(s, CheckItem(s, t, point, w))
  {
    hide Applies, WritesAllowed;
  }

  lemma StartEffectItems(s: State, t: Turn, e: EffectId, n: nat, stage: Stage, w: WorkerStep)
    requires s.worker == InEffect(t, e, n, stage) && TurnAt(s, s.worker)
    ensures ItemAct(s, StartEffect(s, t, e, n, stage, w))
  {
    hide Applies, WritesAllowed;
  }

  lemma FinishEffectItems(s: State, t: Turn, e: EffectId, n: nat, stage: Stage, w: WorkerStep)
    requires s.worker == InEffect(t, e, n, stage) && TurnAt(s, s.worker)
    ensures ItemAct(s, FinishEffect(s, t, e, n, stage, w))
  {
    hide Applies, Confirmation;
  }

  lemma CatchEffectItems(s: State, t: Turn, e: EffectId, n: nat, stage: Stage, w: WorkerStep)
    requires s.worker == InEffect(t, e, n, stage) && TurnAt(s, s.worker)
    ensures ItemAct(s, CatchEffect(s, t, e, n, stage, w))
  {
    hide Applies;
  }

  lemma RefuseEffectItems(s: State, t: Turn, e: EffectId, n: nat, stage: Stage, w: WorkerStep)
    requires s.worker == InEffect(t, e, n, stage) && TurnAt(s, s.worker)
    ensures ItemAct(s, RefuseEffect(s, t, e, n, stage, w))
  {
    hide Applies;
  }

  lemma OtherItems(s: State, w: WorkerStep)
    requires !s.worker.Entering? && !s.worker.AtItem? && !s.worker.InEffect? && w != Throw && TurnAt(s, s.worker)
    ensures ItemAct(s, Decide(s, w))
  {
    hide Applies, HasItem;
  }

  lemma ThrowItems(s: State)
    requires Throwing(s.worker).Some?
    ensures ItemAct(s, Act(Nothing, Finishing(Throwing(s.worker).value, Failed)))
  {
  }

  lemma DecideItems(s: State, w: WorkerStep)
    requires TurnAt(s, s.worker)
    ensures ItemAct(s, Decide(s, w))
  {
    hide Enter, CheckItem, StartEffect, FinishEffect, CatchEffect, RefuseEffect, HasItem, ItemAct;
    if w == Throw && Throwing(s.worker).Some? {
      ThrowItems(s);
    } else {
      match s.worker
      case Entering(run, gate) => EnterItems(s, run, gate, w);
      case AtItem(t, point) => CheckItemItems(s, t, point, w);
      case InEffect(t, e, n, stage) =>
        StartEffectItems(s, t, e, n, stage, w);
        FinishEffectItems(s, t, e, n, stage, w);
        CatchEffectItems(s, t, e, n, stage, w);
        RefuseEffectItems(s, t, e, n, stage, w);
      case _ => if w != Throw { OtherItems(s, w); } else { StayItems(s, w); }
    }
  }

  lemma StayItems(s: State, w: WorkerStep)
    requires w == Throw && (s.worker.Down? || s.worker.Idle?)
    ensures ItemAct(s, Decide(s, w))
  {
  }

  predicate TookItems(s: State, act: Act, t: State) {
    t.worker == act.to &&
    t.items == if act.change.ItemTo? then WithItem(s.items, act.change.item, act.change.status, act.change.attempt)
               else if act.change.SkipPending? then SkipItems(s.items, act.change.job) else s.items
  }

  lemma WorkerTakesItems(s: State, w: WorkerStep)
    ensures TookItems(s, Decide(s, w), WorkerNext(s, w))
  {
    hide Decide;
  }

  lemma TookKeepsRest(s: State, act: Act, t: State)
    requires RestAt(s, s.worker) && TurnAt(s, s.worker) && ItemAct(s, act) && TookItems(s, act, t)
    ensures RestAt(t, t.worker)
  {
    hide Applies, Planned, StatusMove;
  }

  lemma TookKeepsTurn(s: State, act: Act, t: State)
    requires RestAt(s, s.worker) && TurnAt(s, s.worker) && ItemAct(s, act) && TookItems(s, act, t)
    ensures TurnAt(t, t.worker)
  {
    hide Applies, Planned;
  }

  lemma ExcuseLasts(s: State, act: Act, t: State, i: ItemId)
    requires Keyed(s) && TurnAt(s, s.worker) && i in s.items && s.items[i].status == Attempting && s.items[i].job in s.jobs
    requires Excused(s.jobs[s.items[i].job].status, s.worker, s.items[i].job, i)
    requires LiveAt(s, s.worker) && Moves(s, act) && ItemMove(s, act) && StatusMove(s, act) && Took(s, act, t)
    ensures s.items[i].job in t.jobs && Excused(t.jobs[s.items[i].job].status, t.worker, s.items[i].job, i)
  {
    hide Applies, Planned, JobKeyed, ItemKeyed, Keyed;
  }

  lemma NewAttempt(s: State, act: Act, t: State)
    requires LiveAt(s, s.worker) && TurnAt(s, s.worker) && Moves(s, act) && ItemMove(s, act) && Took(s, act, t)
    requires act.change.ItemTo? && act.change.status == Attempting && act.change.item in s.items
    ensures s.items[act.change.item].job in t.jobs ==>
              Excused(t.jobs[s.items[act.change.item].job].status, t.worker, s.items[act.change.item].job, act.change.item)
  {
    hide Applies, Planned;
  }

  lemma TookKeepsAttempting(s: State, act: Act, t: State)
    requires Keyed(s) && Live(s) && TurnAt(s, s.worker) && AttemptingAt(s, s.worker)
    requires GoodMove(s, act) && ItemAct(s, act) && Took(s, act, t) && TookItems(s, act, t)
    ensures AttemptingAt(t, t.worker)
  {
    forall i | i in t.items && t.items[i].status == Attempting && t.items[i].job in t.jobs
      ensures Excused(t.jobs[t.items[i].job].status, t.worker, t.items[i].job, i)
    {
      assert s.items[i].job == t.items[i].job;
      if s.items[i].status == Attempting { ExcuseLasts(s, act, t, i); } else { NewAttempt(s, act, t); }
    }
    hide *;
  }

  lemma WorkerKeepsItems(s: State, w: WorkerStep)
    requires Keyed(s) && Live(s) && ItemsKept(s)
    ensures ItemsKept(WorkerNext(s, w))
  {
    var act, t := Decide(s, w), WorkerNext(s, w);
    DecideMoves(s, w);
    DecideItems(s, w);
    WorkerTakes(s, w);
    WorkerTakesItems(s, w);
    hide Decide, WorkerNext, RestAt, TurnAt, AttemptingAt, GoodMove, ItemAct, Took, TookItems;
    TookKeepsRest(s, act, t);
    TookKeepsTurn(s, act, t);
    TookKeepsAttempting(s, act, t);
  }

  /** The web leaves the running job's items alone, and no attempting item is new. */
  predicate ItemsFramed(s: State, t: State) {
    t.worker == s.worker &&
    (PastPolicyCheck(s.worker) ==>
       forall i :: i in s.items && s.items[i].job == RunOf(s.worker).value.job ==> i in t.items && t.items[i] == s.items[i]) &&
    (forall i :: i in t.items && t.items[i].status == Attempting ==> i in s.items && t.items[i] == s.items[i]) &&
    (forall i :: i in t.items && t.items[i].status == Attempting && t.items[i].job in t.jobs ==>
       t.items[i].job in s.jobs && JobShape(s.jobs[t.items[i].job], t.jobs[t.items[i].job]))
  }

  lemma FramedKeepsItems(s: State, t: State)
    requires ItemsKept(s) && ItemsFramed(s, t)
    ensures ItemsKept(t)
  {
    hide Applies, StatusAt;
  }

  lemma SettingFramesItems(s: State, w: WebStep)
    requires Keyed(s) && !Rewrites(w)
    ensures ItemsFramed(s, WebNext(s, w))
  {
    WebKeepsShape(s, w);
    hide WebNext, RunOf, PastPolicyCheck;
  }

  lemma ApproveFramesItems(s: State, w: WebStep)
    requires Keyed(s) && Allowed(s, w) && w.Approve?
    ensures ItemsFramed(s, WebNext(s, w))
  {
    ApproveAdds(s, w);
    AddedFramesItems(s, w, WebNext(s, w));
  }

  lemma AddedFramesItems(s: State, w: WebStep, t: State)
    requires w.Approve? && Added(s, w, t)
    ensures ItemsFramed(s, t)
  {
    hide RunOf, PastPolicyCheck;
  }

  lemma LeftFramesItems(s: State, did: Did, t: State)
    requires Live(s) && did in s.standing && Left(s, did, t)
    ensures ItemsFramed(s, t)
  {
    assert PastPolicyCheck(s.worker) ==> PastDeletionCheck(s.worker);
    hide RunOf, PastPolicyCheck, PastDeletionCheck;
  }

  lemma WebKeepsItems(s: State, w: WebStep)
    requires Keyed(s) && Live(s) && ItemsKept(s)
    ensures ItemsKept(WebNext(s, w))
  {
    hide ItemsKept, Keyed, Live, ItemsFramed, PurgeTx, Left;
    if Allowed(s, w) {
      if w.Approve? { ApproveFramesItems(s, w); }
      else if w.Purge? { PurgeLeaves(s, w.did, w.engineRemoved); LeftFramesItems(s, w.did, WebNext(s, w)); }
      else { SettingFramesItems(s, w); }
      FramedKeepsItems(s, WebNext(s, w));
    }
  }

  lemma RecoverKeepsItems(s: State)
    requires ItemsKept(s)
    ensures ItemsKept(RecoverTx(s))
  {
  }

  lemma CrashKeepsItems(s: State)
    requires ItemsKept(s)
    ensures ItemsKept(s.(worker := Down))
  {
  }
}
