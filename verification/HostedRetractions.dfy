/** Confirmed items whose journal attempt was closed again: exactly when that happens in a run, and why such an
    item can still read confirmed afterwards. */
module HostedRetractions {
  import opened Wrappers
  import opened Ledger
  import opened Hosted
  import opened HostedInvariants
  import opened HostedItems
  import opened HostedEngines
  import opened HostedOutcomes
  import opened HostedTheorems
  import opened HostedSteps

  /** The worker in the handler of item i's effect, after the item was recorded as confirmed. */
  predicate InHandler(p: Phase, i: ItemId, stage: Stage) {
    p.InEffect? && p.turn.item == i && p.stage == stage
  }

  /** In action a closing i's reservation raises; from then to b the handler waits; in action b it closes i's
      journal attempt as unresolved, and the close reaches the journal. */
  ghost predicate Retracted(states: seq<State>, steps: seq<Step>, i: ItemId, a: nat, b: nat) {
    |states| == |steps| + 1 && a < b < |steps| &&
    InHandler(states[a].worker, i, Recorded(true)) && steps[a] == Worker(Throw) &&
    (forall m :: a < m <= b ==> states[m].worker == states[a].worker.(stage := Caught)) &&
    steps[b].Worker? && steps[b].step.Finish? && Commits(steps[b].step.call) && i in states[b].items
  }

  /** The step that closes a confirmed item's attempt. */
  predicate Notes(s: State, a: Step, i: ItemId) {
    a.Worker? && a.step.Finish? && Commits(a.step.call) && InHandler(s.worker, i, Caught) && Overwrites(s, s.worker.turn)
  }

  lemma EffectDemotes(s: State, w: WorkerStep)
    requires s.worker.InEffect?
    ensures var c := Decide(s, w).change;
            c.JournalTo? && c.committed && c.demotes.Some? <==>
            s.worker.stage.Caught? && w.Finish? && Commits(w.call) && Overwrites(s, s.worker.turn)
    ensures var c := Decide(s, w).change; c.JournalTo? && c.demotes.Some? ==> c.demotes.value == s.worker.turn.item
  {
    hide WritesAllowed, Confirmation, Overwrites;
  }

  lemma OthersDemoteNothing(s: State, w: WorkerStep)
    requires !s.worker.InEffect?
    ensures var c := Decide(s, w).change; c.JournalTo? ==> c.demotes.None?
  {
    hide Planned, PendingItems, Applies, WritesAllowed, TallyStatus, JournalOf;
  }

  lemma WorkerNotes(s: State, w: WorkerStep, i: ItemId)
    ensures Demoted(i) in WorkerNext(s, w).log <==> Demoted(i) in s.log || Notes(s, Worker(w), i)
  {
    WorkerTakesNotes(s, w);
    if s.worker.InEffect? { EffectDemotes(s, w); } else { OthersDemoteNothing(s, w); }
    hide Decide, WorkerNext, Overwrites;
  }

  lemma WebFrames(s: State, w: WebStep)
    requires Keyed(s)
    ensures OutcomesFramed(s, WebNext(s, w))
  {
    hide OutcomesFramed;
    if !Allowed(s, w) { QuietFrames(s); }
    else if w.Approve? { ApproveAdds(s, w); ApproveFramesOutcomes(s, w, WebNext(s, w)); }
    else if w.Purge? { PurgeLeaves(s, w.did, w.engineRemoved); LeftFramesOutcomes(s, w.did, WebNext(s, w)); }
    else { SettingFramesOutcomes(s, w); }
    hide *;
  }

  lemma QuietFrames(s: State)
    requires Keyed(s)
    ensures OutcomesFramed(s, s) && OutcomesFramed(s, s.(worker := Down))
  {
    forall i | i in s.items ensures ItemKeyed(s, i) {}
  }

  /** Requests, deaths and restarts leave recorded outcomes alone. */
  lemma OthersFrame(s: State, a: Step)
    requires Keyed(s) && !a.Worker?
    ensures OutcomesFramed(s, Next(s, a))
  {
    hide WebNext, RecoverTx, OutcomesFramed;
    QuietFrames(s);
    match a
    case Web(w) => WebFrames(s, w);
    case Crash =>
    case Recover => RecoverFramesOutcomes(s);
  }

  lemma StepNotes(s: State, a: Step, i: ItemId)
    requires Keyed(s)
    ensures Demoted(i) in Next(s, a).log <==> Demoted(i) in s.log || Notes(s, a, i)
  {
    if a.Worker? { WorkerNotes(s, a.step, i); } else { OthersFrame(s, a); }
    hide WorkerNext, WebNext, RecoverTx, Overwrites;
  }

  // ----- how an item and the handler move in one step -----

  /** A worker step changes at most the item at hand and pending items. */
  lemma WorkerKeepsItem(s: State, w: WorkerStep, i: ItemId)
    requires i in s.items
    ensures var c, t := Decide(s, w).change, WorkerNext(s, w);
            i in t.items && t.nextItem == s.nextItem &&
            (c.ItemTo? && c.item == i ==> t.items[i].status == c.status) &&
            (!(c.ItemTo? && c.item == i) && s.items[i].status != ItemPending ==> t.items[i] == s.items[i])
  {
    hide Decide;
  }

  /** The handler is entered with a confirmed item only from the raise after its recording. */
  lemma IntoHandler(s: State, w: WorkerStep, i: ItemId)
    requires TurnAt(s, s.worker) && InHandler(Decide(s, w).to, i, Caught)
    requires i in WorkerNext(s, w).items && WorkerNext(s, w).items[i].status == ItemConfirmed
    ensures i in s.items && s.items[i].status == ItemConfirmed
    ensures Decide(s, w).to == s.worker || (w == Throw && s.worker == Decide(s, w).to.(stage := Recorded(true)))
  {
    assert i in s.items by { hide Decide; WorkerKeepsShape(s, w); }
    HandlerSource(s, w, i);
    WorkerKeepsItem(s, w, i);
    hide Decide, WorkerNext, Applies;
  }

  lemma HandlerSource(s: State, w: WorkerStep, i: ItemId)
    requires InHandler(Decide(s, w).to, i, Caught)
    ensures var act := Decide(s, w);
            s.worker.InEffect? && !act.change.ItemTo? && act.to == s.worker.(stage := Caught) &&
            (act.to == s.worker ||
             (if s.worker.stage.Recorded? then w == Throw
              else s.worker.stage.Gated? || s.worker.stage.ReadBack? || s.worker.stage.Closed?))
  {
    hide WritesAllowed, Confirmation, Overwrites, Planned, PendingItems, Applies, TallyStatus, JournalOf;
  }

  lemma RaiseEnters(s: State, i: ItemId)
    requires TurnAt(s, s.worker) && InHandler(s.worker, i, Recorded(true))
    ensures i in s.items && s.items[i].status == ItemConfirmed
    ensures WorkerNext(s, Throw).worker == s.worker.(stage := Caught) && WorkerNext(s, Throw).items == s.items
  {
    hide Applies;
  }

  lemma HandlerStep(s: State, a: Step, i: ItemId)
    requires Keyed(s) && TurnAt(s, s.worker) && InHandler(Next(s, a).worker, i, Caught)
    requires i in Next(s, a).items && Next(s, a).items[i].status == ItemConfirmed
    ensures i in s.items && s.items[i].status == ItemConfirmed
    ensures Next(s, a).worker == s.worker || (a == Worker(Throw) && s.worker == Next(s, a).worker.(stage := Recorded(true)))
  {
    if a.Worker? {
      IntoHandler(s, a.step, i);
    } else {
      OthersFrame(s, a);
      OthersKeepPlace(s, a);
    }
    hide TurnAt, Decide, WebNext, RecoverTx, Do;
  }

  lemma OthersKeepPlace(s: State, a: Step)
    requires !a.Worker?
    ensures Next(s, a).worker == s.worker || (a == Crash && Next(s, a).worker == Down) || (s.worker == Down && Next(s, a).worker == Idle)
  {
    hide Allowed, JobAfter;
  }

  /** While the handler waits a confirmed item stays confirmed or is erased. */
  lemma HandlerKeepsItem(s: State, a: Step, i: ItemId)
    requires Keyed(s) && i < s.nextItem && (i in s.items ==> s.items[i].status == ItemConfirmed)
    requires InHandler(s.worker, i, Caught) && Next(s, a).worker == s.worker
    ensures var t := Next(s, a); i < t.nextItem && (i in t.items ==> t.items[i].status == ItemConfirmed)
  {
    if a.Worker? {
      HandlerSource(s, a.step, i);
      if i in s.items { WorkerKeepsItem(s, a.step, i); }
      WorkerKeepsShape(s, a.step);
    } else {
      OthersFrame(s, a);
    }
    hide Decide, WebNext, RecoverTx, Do, JobKeyed, ItemKeyed;
  }

  // ----- along a run -----

  lemma KeptAt(states: seq<State>, steps: seq<Step>, n: nat)
    requires IsRun(states, steps) && n <= |steps|
    ensures Keyed(states[n]) && TurnAt(states[n], states[n].worker) && (n > 0 ==> states[n] == Next(states[n - 1], steps[n - 1]))
  {
    hide Next;
    RunKeeps(states, steps, n);
    if n > 0 { assert Moved(states, steps, n - 1); }
    hide Keyed, TurnAt, Live, OutcomesKept, EnginesKept;
  }

  lemma {:induction false} HandlerSince(states: seq<State>, steps: seq<Step>, i: ItemId, m: nat) returns (a: nat)
    requires IsRun(states, steps) && m <= |steps| && InHandler(states[m].worker, i, Caught)
    requires i in states[m].items && states[m].items[i].status == ItemConfirmed
    ensures a < m && InHandler(states[a].worker, i, Recorded(true)) && steps[a] == Worker(Throw)
    ensures forall k :: a < k <= m ==> states[k].worker == states[a].worker.(stage := Caught)
  {
    hide Next, TurnAt, Keyed;
    assert m > 0;
    KeptAt(states, steps, m);
    KeptAt(states, steps, m - 1);
    HandlerStep(states[m - 1], steps[m - 1], i);
    if states[m].worker == states[m - 1].worker {
      a := HandlerSince(states, steps, i, m - 1);
    } else {
      a := m - 1;
    }
  }

  lemma {:induction false} ConfirmedThrough(states: seq<State>, steps: seq<Step>, i: ItemId, a: nat, m: nat)
    requires IsRun(states, steps) && a < m <= |steps| && InHandler(states[a].worker, i, Recorded(true)) && steps[a] == Worker(Throw)
    requires forall k :: a < k <= m ==> states[k].worker == states[a].worker.(stage := Caught)
    ensures i < states[m].nextItem && (i in states[m].items ==> states[m].items[i].status == ItemConfirmed)
  {
    hide Next, TurnAt, Keyed;
    KeptAt(states, steps, m);
    KeptAt(states, steps, m - 1);
    if m == a + 1 {
      EnterKeepsItem(states[a], i);
    } else {
      ConfirmedThrough(states, steps, i, a, m - 1);
      HandlerKeepsItem(states[m - 1], steps[m - 1], i);
    }
  }

  lemma EnterKeepsItem(s: State, i: ItemId)
    requires Keyed(s) && TurnAt(s, s.worker) && InHandler(s.worker, i, Recorded(true))
    ensures var t := Next(s, Worker(Throw)); i < t.nextItem && i in t.items && t.items[i].status == ItemConfirmed
  {
    RaiseEnters(s, i);
    WorkerKeepsShape(s, Throw);
    assert ItemKeyed(s, i);
    hide WorkerNext, TurnAt;
  }

  lemma NotedNow(states: seq<State>, steps: seq<Step>, i: ItemId, b: nat)
    requires IsRun(states, steps) && b < |steps|
    ensures Notes(states[b], steps[b], i) <==> exists a: nat :: Retracted(states, steps, i, a, b)
  {
    hide Next;
    if Notes(states[b], steps[b], i) {
      var a := HandlerSince(states, steps, i, b);
      assert Retracted(states, steps, i, a, b);
    }
    forall a: nat | Retracted(states, steps, i, a, b) ensures Notes(states[b], steps[b], i) {
      ConfirmedThrough(states, steps, i, a, b);
    }
  }

  ghost predicate EverRetracted(states: seq<State>, steps: seq<Step>, i: ItemId, n: nat) {
    exists a: nat, b: nat :: b < n && Retracted(states, steps, i, a, b)
  }

  lemma EverGrows(states: seq<State>, steps: seq<Step>, i: ItemId, n: nat)
    ensures EverRetracted(states, steps, i, n + 1) <==>
            EverRetracted(states, steps, i, n) || exists a: nat :: Retracted(states, steps, i, a, n)
  {
    hide Retracted;
  }

  /** The note on an item and the run agree: it was made exactly if the close of its reservation raised after the
      item was confirmed, and the handler's close of its attempt reached the journal. */
  lemma {:induction false} NotesTellTheRun(states: seq<State>, steps: seq<Step>, i: ItemId, n: nat)
    requires IsRun(states, steps) && n <= |steps|
    ensures Demoted(i) in states[n].log <==> EverRetracted(states, steps, i, n)
  {
    hide Next, Retracted, Notes, TurnAt, Keyed;
    if n > 0 {
      NotesTellTheRun(states, steps, i, n - 1);
      KeptAt(states, steps, n);
      KeptAt(states, steps, n - 1);
      hide IsRun, EverRetracted;
      StepNotes(states[n - 1], steps[n - 1], i);
      NotedNow(states, steps, i, n - 1);
      EverGrows(states, steps, i, n - 1);
    }
  }

  /** A confirmed item's attempt reads confirmed exactly if the run never retracted it. */
  lemma AttemptsAreConfirmedUnlessRetracted(states: seq<State>, steps: seq<Step>, s: State, i: ItemId)
    requires IsRun(states, steps) && s == states[|steps|] && i in s.items && s.items[i].status == ItemConfirmed
    ensures s.items[i].job in s.jobs && s.items[i].attempt.Some? && s.items[i].attempt.value < |JournalOf(s, DidOf(s, i)).attempts|
    ensures JournalOf(s, DidOf(s, i)).attempts[s.items[i].attempt.value].status == AttemptStatus.Confirmed <==>
            !EverRetracted(states, steps, i, |steps|)
  {
    NotesTellTheRun(states, steps, i, |steps|);
    hide IsRun, EverRetracted;
    assert Reachable(s) by { RunReaches(states, steps); }
    ConfirmedItemsAreBacked(s, i);
  }

  lemma RunReaches(states: seq<State>, steps: seq<Step>)
    requires IsRun(states, steps)
    ensures Reachable(states[|steps|])
  {
    hide IsRun;
  }

  // ----- why a retracted item can still read confirmed -----

  /** Recorded as uncertain, or erased. */
  predicate Doubtful(s: State, i: ItemId) {
    i < s.nextItem && (i in s.items ==> s.items[i].status == ItemUncertain)
  }

  lemma UncertainStays(s: State, w: WorkerStep)
    requires TurnAt(s, s.worker)
    ensures var c := Decide(s, w).change;
            c.ItemTo? && c.item in s.items && s.items[c.item].status == ItemUncertain ==> c.status == ItemUncertain
  {
    if s.worker.InEffect? { EffectKeepsUncertain(s, w); } else { OtherKeepsUncertain(s, w); }
    hide Decide, TurnAt, ItemAct;
  }

  lemma EffectKeepsUncertain(s: State, w: WorkerStep)
    requires s.worker.InEffect? && TurnAt(s, s.worker)
    ensures var c := Decide(s, w).change;
            c.ItemTo? && c.item in s.items && s.items[c.item].status == ItemUncertain ==> c.status == ItemUncertain
  {
    hide WritesAllowed, Confirmation, Overwrites, Applies;
  }

  lemma OtherKeepsUncertain(s: State, w: WorkerStep)
    requires !s.worker.InEffect? && TurnAt(s, s.worker)
    ensures var c := Decide(s, w).change;
            c.ItemTo? && c.item in s.items && s.items[c.item].status == ItemUncertain ==> c.status == ItemUncertain
  {
    hide Planned, PendingItems, Applies, WritesAllowed, TallyStatus, JournalOf;
  }

  lemma DoubtStays(s: State, a: Step, i: ItemId)
    requires Keyed(s) && TurnAt(s, s.worker) && Doubtful(s, i)
    ensures Doubtful(Next(s, a), i)
  {
    if a.Worker? {
      if i in s.items { WorkerKeepsItem(s, a.step, i); UncertainStays(s, a.step); }
      WorkerKeepsShape(s, a.step);
    } else {
      OthersFrame(s, a);
    }
    hide Decide, WebNext, RecoverTx, Do, JobKeyed, ItemKeyed, TurnAt;
  }

  lemma AfterClose(s: State, w: WorkerStep, i: ItemId)
    requires InHandler(s.worker, i, CaughtClosed) && w != Throw
    ensures Decide(s, w) == Act(Nothing, s.worker) || Decide(s, w).change == ItemTo(i, ItemUncertain, Some(s.worker.attempt))
  {
  }

  /** From the handler's answered close: the item is rewritten, unless the handler dies or raises. */
  lemma CloseStep(s: State, a: Step, i: ItemId)
    requires Keyed(s) && TurnAt(s, s.worker) && InHandler(s.worker, i, CaughtClosed)
    ensures Next(s, a).worker == s.worker || a == Crash || a == Worker(Throw) || Doubtful(Next(s, a), i)
  {
    if a.Worker? {
      if a.step != Throw { AfterClose(s, a.step, i); }
      HandItem(s, i);
      WorkerKeepsItem(s, a.step, i);
      WorkerKeepsShape(s, a.step);
    } else {
      OthersKeepPlace(s, a);
    }
    hide Decide, WebNext, RecoverTx, Do, JobKeyed, ItemKeyed, TurnAt;
  }

  lemma HandItem(s: State, i: ItemId)
    requires Keyed(s) && TurnAt(s, s.worker) && s.worker.InEffect? && s.worker.turn.item == i
    ensures i in s.items && i < s.nextItem
  {
    hide Applies;
    assert i in s.items;
    assert ItemKeyed(s, i);
  }

  /** Between b and c the worker stands in one place. */
  predicate Waits(states: seq<State>, p: Phase, b: nat, c: nat)
    requires c < |states|
  {
    forall m :: b < m <= c ==> states[m].worker == p
  }

  /** The handler, having closed the attempt, was left by a death or a raise in action c. */
  predicate CutShort(states: seq<State>, steps: seq<Step>, p: Phase, b: nat, c: nat)
    requires |states| == |steps| + 1 && c < |steps|
  {
    b < c && Waits(states, p, b, c) && (steps[c] == Crash || steps[c] == Worker(Throw))
  }

  lemma {:induction false} ClosedThenRewritten(states: seq<State>, steps: seq<Step>, i: ItemId, p: Phase, b: nat, k: nat)
    requires IsRun(states, steps) && b < k <= |steps| && InHandler(p, i, CaughtClosed) && states[b + 1].worker == p
    ensures Waits(states, p, b, k) || Doubtful(states[k], i) || exists c: nat :: c < k && CutShort(states, steps, p, b, c)
  {
    hide Next, TurnAt, Keyed, Doubtful, InHandler;
    if k > b + 1 {
      ClosedThenRewritten(states, steps, i, p, b, k - 1);
      KeptAt(states, steps, k);
      KeptAt(states, steps, k - 1);
      hide IsRun;
      if Doubtful(states[k - 1], i) {
        DoubtStays(states[k - 1], steps[k - 1], i);
      } else if Waits(states, p, b, k - 1) {
        CloseStep(states[k - 1], steps[k - 1], i);
        if steps[k - 1] == Crash || steps[k - 1] == Worker(Throw) { assert CutShort(states, steps, p, b, k - 1); }
      }
    }
  }

  lemma AnsweredClose(s: State, i: ItemId)
    requires InHandler(s.worker, i, Caught)
    ensures Next(s, Worker(WorkerStep.Finish(Returned))).worker == s.worker.(stage := CaughtClosed)
  {
    FinishGoes(s, s.worker.turn, s.worker.effect, s.worker.attempt, Caught, Returned);
    hide Decide;
  }

  /** An item that still reads confirmed although its attempt was retracted: the answer of the handler's close was
      lost, or after it the process died or raised before the item was rewritten, or has yet to rewrite it. */
  lemma ConfirmedDespiteRetraction(states: seq<State>, steps: seq<Step>, s: State, i: ItemId, a: nat, b: nat)
    requires IsRun(states, steps) && s == states[|steps|] && i in s.items && s.items[i].status == ItemConfirmed
    requires Retracted(states, steps, i, a, b)
    ensures var p := states[a].worker.(stage := CaughtClosed);
            !steps[b].step.call.Returned? || Waits(states, p, b, |steps|) ||
            exists c: nat :: c < |steps| && CutShort(states, steps, p, b, c)
  {
    hide Next;
    if steps[b].step.call.Returned? {
      KeptAt(states, steps, b + 1);
      assert steps[b] == Worker(WorkerStep.Finish(Returned));
      AnsweredClose(states[b], i);
      ClosedThenRewritten(states, steps, i, states[a].worker.(stage := CaughtClosed), b, |steps|);
    }
    hide *;
  }
}
