/** What a recorded outcome is worth: confirmed items have a matching read and a confirmed journal
    attempt unless the handler demoted it, and completed jobs have confirmed items only. */
module HostedOutcomes {
  import opened Wrappers
  import opened Policy
  import opened Ledger
  import opened Hosted
  import opened HostedInvariants
  import opened HostedItems
  import opened HostedEngines

  predicate AttemptConfirmed(h: seq<Event>, n: nat) {
    n < |Replay(h).attempts| && Replay(h).attempts[n].status == AttemptStatus.Confirmed
  }

  predicate ConfirmedAt(s: State, i: ItemId)
    requires i in s.items
  {
    (Demoted(i) in s.log ==> s.items[i].status == ItemConfirmed || s.items[i].status == ItemUncertain) &&
    (s.items[i].status == ItemConfirmed && s.items[i].job in s.jobs ==>
       s.items[i].attempt.Some? && Matched(i) in s.log &&
       (AttemptConfirmed(History(s, DidOf(s, i)), s.items[i].attempt.value) <==> Demoted(i) !in s.log))
  }

  ghost predicate NotesKeyed(s: State) {
    forall i: ItemId :: Demoted(i) in s.log ==> i < s.nextItem
  }

  /** The worker believes its effect confirmed only after a matching read, and closed only once journalled. */
  predicate ClosedAt(s: State, p: Phase) {
    p.InEffect? ==>
      (p.stage == ReadBack(true) || p.stage == Closed(true) || p.stage == Recorded(true) ==> Matched(p.turn.item) in s.log) &&
      (p.stage == Closed(true) ==> AttemptConfirmed(History(s, p.turn.run.did), p.attempt))
  }

  predicate AllConfirmed(s: State, j: JobId) {
    forall i :: i in s.items && s.items[i].job == j ==> s.items[i].status == ItemConfirmed
  }

  predicate FinishesHonestly(s: State, p: Phase) {
    (p.Finishing? && p.status == Completed ==> AllConfirmed(s, p.job)) && (p.Exiting? ==> p.status != Completed)
  }

  ghost predicate OutcomesKept(s: State) {
    (forall i :: i in s.items ==> ConfirmedAt(s, i)) && NotesKeyed(s) && ClosedAt(s, s.worker) &&
    (forall j :: j in s.jobs && s.jobs[j].status == Completed ==> AllConfirmed(s, j)) &&
    FinishesHonestly(s, s.worker)
  }

  /** How a step comes to believe, record and overwrite a confirmation. */
  predicate OutcomeMove(s: State, act: Act) {
    var p, q, c := s.worker, act.to, act.change;
    (q.InEffect? && (q.stage == ReadBack(true) || q.stage == Closed(true) || q.stage == Recorded(true)) ==>
       p.InEffect? && q.turn == p.turn && q.attempt == p.attempt &&
       (c == Observed(q.turn.item) || p.stage == ReadBack(true) || p.stage == Closed(true) || p.stage == Recorded(true))) &&
    (q.InEffect? && q.stage == Closed(true) ==>
       if p.stage == Closed(true) then !c.JournalTo? && !c.Remotely?
       else c.JournalTo? && c.committed && c.did == p.turn.run.did && c.event == Closing(p.turn, p.attempt, true)) &&
    (c.ItemTo? && c.status == ItemConfirmed ==> p.InEffect? && p.stage == Closed(true) && c.attempt == Some(p.attempt)) &&
    (c.ItemTo? ==> TurnOf(p).Some? && c.item == TurnOf(p).value.item) &&
    (c.ItemTo? && c.status != ItemConfirmed && c.status != ItemUncertain ==>
       p.AtItem? || (p.InEffect? && (p.stage.Journalled? || p.stage.RefusedClosed?))) &&
    (c.JournalTo? ==>
       if c.event.Finished? then
         p.InEffect? && c.did == p.turn.run.did && c.event.attempt == p.attempt && c.demotes == (if Overwrites(s, p.turn) then Some(p.turn.item) else None) &&
         (Overwrites(s, p.turn) ==> !c.event.success)
       else c.event.Begun? && c.demotes.None?)
  }

  lemma EffectOutcome(s: State, t: Turn, e: EffectId, n: nat, stage: Stage, w: WorkerStep)
    requires s.worker == InEffect(t, e, n, stage) && TurnAt(s, s.worker)
    ensures stage.Journalled? || stage.Marked? || stage.Gated? ==> OutcomeMove(s, StartEffect(s, t, e, n, stage, w))
    ensures stage.Refused? || stage.RefusedClosed? || stage.RefusedReset? ==> OutcomeMove(s, RefuseEffect(s, t, e, n, stage, w))
  {
    hide WritesAllowed, Applies;
  }

  lemma FinishOutcome(s: State, t: Turn, e: EffectId, n: nat, stage: Stage, w: WorkerStep)
    requires s.worker == InEffect(t, e, n, stage) && TurnAt(s, s.worker)
    ensures stage.Requested? || stage.ReadBack? || stage.Closed? || stage.Recorded? ==> OutcomeMove(s, FinishEffect(s, t, e, n, stage, w))
  {
    hide Confirmation, Applies;
  }

  lemma CatchOutcome(s: State, t: Turn, e: EffectId, n: nat, stage: Stage, w: WorkerStep)
    requires s.worker == InEffect(t, e, n, stage)
    ensures stage.Caught? || stage.CaughtClosed? || stage.CaughtRecorded? ==> OutcomeMove(s, CatchEffect(s, t, e, n, stage, w))
  {
  }

  lemma OtherOutcome(s: State, w: WorkerStep)
    requires !s.worker.InEffect? && !s.worker.Entering?
    ensures OutcomeMove(s, Decide(s, w))
  {
    hide HasItem, Applies, WritesAllowed;
  }

  lemma EnterOutcome(s: State, w: WorkerStep)
    requires s.worker.Entering?
    ensures OutcomeMove(s, Decide(s, w))
  {
    hide Planned, PendingItems, JournalOf;
  }

  lemma ThrowOutcome(s: State, w: WorkerStep)
    requires s.worker.InEffect? && w == Throw && Throwing(s.worker).Some?
    ensures OutcomeMove(s, Decide(s, w))
  {
  }

  lemma DecideOutcome(s: State, w: WorkerStep)
    requires TurnAt(s, s.worker)
    ensures OutcomeMove(s, Decide(s, w))
  {
    hide OutcomeMove, TurnAt;
    match s.worker
    case Entering(_, _) => EnterOutcome(s, w);
    case InEffect(t, e, n, stage) =>
      if w == Throw && Throwing(s.worker).Some? {
        ThrowOutcome(s, w);
      } else {
        EffectOutcome(s, t, e, n, stage, w);
        FinishOutcome(s, t, e, n, stage, w);
        CatchOutcome(s, t, e, n, stage, w);
        hide StartEffect, FinishEffect, CatchEffect, RefuseEffect;
      }
    case _ => OtherOutcome(s, w);
  }

  predicate TookNotes(s: State, act: Act, t: State) {
    var c := act.change;
    t.worker == act.to && t.nextItem == s.nextItem &&
    t.log == if c.JournalTo? && c.committed && c.demotes.Some? then s.log + [Demoted(c.demotes.value)]
             else if c.Remotely? then s.log + [Wrote(c.write)]
             else if c.Observed? then s.log + [Matched(c.item)] else s.log
  }

  lemma WorkerTakesNotes(s: State, w: WorkerStep)
    ensures TookNotes(s, Decide(s, w), WorkerNext(s, w))
  {
    hide Decide;
  }

  lemma AttemptAfter(h: seq<Event>, e: Event, n: nat)
    requires n < |Replay(h).attempts|
    ensures AttemptConfirmed(h + [e], n) <==> if e.Finished? && e.attempt == n then e.success else AttemptConfirmed(h, n)
  {
    ReplayAppend(h, e);
  }

  /** A confirmed item's attempt changes only under the handler, which notes it. */
  lemma ConfirmationStays(s: State, act: Act, t: State, i: ItemId)
    requires i in s.items && s.items[i].job in s.jobs && s.items[i].status == ItemConfirmed
    requires Live(s) && TurnAt(s, s.worker) && AttemptAt(s, i) && NobodyElses(s, s.worker) && ConfirmedAt(s, i)
    requires OutcomeMove(s, act) && TookEngines(s, act, t) && TookNotes(s, act, t)
    ensures AttemptConfirmed(History(t, DidOf(s, i)), s.items[i].attempt.value) <==> Demoted(i) !in t.log
  {
    var d, n := DidOf(s, i), s.items[i].attempt.value;
    HistoriesGrow(s, act, t, d);
    if History(t, d) != History(s, d) {
      AttemptAfter(History(s, d), HostedEngines.Added(act.change).value, n);
    }
    hide AttemptConfirmed, Applies, Replay, OnlyOneRuns, SettledAt;
    assert TurnOf(s.worker).Some? && i == TurnOf(s.worker).value.item ==> d == TurnOf(s.worker).value.run.did;
  }

  lemma DemotionStays(s: State, act: Act, t: State, i: ItemId)
    requires TurnAt(s, s.worker) && i in s.items && i in t.items && ConfirmedAt(s, i)
    requires OutcomeMove(s, act) && TookItems(s, act, t) && TookNotes(s, act, t) && Demoted(i) in t.log
    ensures t.items[i].status == ItemConfirmed || t.items[i].status == ItemUncertain
  {
    hide AttemptConfirmed, Applies;
  }

  lemma TookKeepsConfirmed(s: State, act: Act, t: State, i: ItemId)
    requires Live(s) && TurnAt(s, s.worker) && EnginesKept(s) && OutcomesKept(s) && SameShape(s, t)
    requires OutcomeMove(s, act) && TookItems(s, act, t) && TookEngines(s, act, t) && TookNotes(s, act, t) && i in t.items
    ensures ConfirmedAt(t, i)
  {
    assert ConfirmedAt(s, i) && AttemptAt(s, i);
    if Demoted(i) in t.log { DemotionStays(s, act, t, i); }
    if t.items[i].status == ItemConfirmed && t.items[i].job in t.jobs {
      assert DidOf(t, i) == DidOf(s, i);
      if s.items[i].status == ItemConfirmed {
        ConfirmationStays(s, act, t, i);
        assert t.items[i].attempt == s.items[i].attempt by { hide ConfirmedAt, SameShape, Live; }
      } else {
        NewlyConfirmed(s, act, t, i);
      }
    }
    hide AttemptConfirmed, EnginesKept, NotesKeyed, AllConfirmed, Applies, Live, TookEngines, TookItems, OutcomeMove, TurnAt;
  }

  lemma NewlyConfirmed(s: State, act: Act, t: State, i: ItemId)
    requires Live(s) && TurnAt(s, s.worker) && ClosedAt(s, s.worker) && i in s.items && i in t.items && ConfirmedAt(s, i)
    requires OutcomeMove(s, act) && TookItems(s, act, t) && TookEngines(s, act, t) && TookNotes(s, act, t)
    requires s.items[i].job in s.jobs && s.items[i].status != ItemConfirmed && t.items[i].status == ItemConfirmed
    ensures t.items[i].attempt.Some? && Matched(i) in t.log && Demoted(i) !in t.log
    ensures AttemptConfirmed(History(t, DidOf(s, i)), t.items[i].attempt.value)
  {
    hide AttemptConfirmed, Applies, OnlyOneRuns, SettledAt;
  }

  lemma TookKeepsClosed(s: State, act: Act, t: State)
    requires TurnAt(s, s.worker) && StageAt(s, s.worker) && ClosedAt(s, s.worker)
    requires OutcomeMove(s, act) && TookEngines(s, act, t) && TookNotes(s, act, t)
    ensures ClosedAt(t, t.worker)
  {
    var p, q := s.worker, act.to;
    if q.InEffect? && q.stage == Closed(true) && p.stage != Closed(true) {
      AttemptAfter(History(s, p.turn.run.did), act.change.event, p.attempt);
    }
    hide AttemptConfirmed, Applies, Replay;
  }

  lemma TookKeepsNotes(s: State, act: Act, t: State)
    requires Keyed(s) && TurnAt(s, s.worker) && NotesKeyed(s) && OutcomeMove(s, act) && TookNotes(s, act, t)
    ensures NotesKeyed(t)
  {
    assert TurnOf(s.worker).Some? ==> ItemKeyed(s, TurnOf(s.worker).value.item);
    hide Applies;
  }

  // ----- completion -----

  /** Only a tally that finds nothing else ends a job as completed. */
  predicate FinishMove(s: State, act: Act) {
    var p, q, c := s.worker, act.to, act.change;
    (q.Finishing? && q.status == Completed ==>
       c.Nothing? && (q == p || (p.Tallying? && q.job == p.run.job && TallyStatus(s, p.run.job) == Completed))) &&
    (c.JobTo? && c.jobStatus == Completed ==> p == Finishing(c.job, Completed)) &&
    (q.Exiting? ==> q.status != Completed)
  }

  lemma EffectFinish(s: State, w: WorkerStep)
    requires s.worker.InEffect?
    ensures FinishMove(s, Decide(s, w))
  {
    hide WritesAllowed, Confirmation, Opening, HasItem;
  }

  lemma EnterFinish(s: State, w: WorkerStep)
    requires s.worker.Entering?
    ensures FinishMove(s, Decide(s, w))
  {
    hide Planned, PendingItems, JournalOf, TallyStatus;
  }

  lemma OtherFinish(s: State, w: WorkerStep)
    requires !s.worker.Entering? && !s.worker.InEffect? && (s.worker.Exiting? ==> s.worker.status != Completed)
    ensures FinishMove(s, Decide(s, w))
  {
    hide TallyStatus, Opening, Applies, WritesAllowed;
  }

  lemma DecideFinish(s: State, w: WorkerStep)
    requires s.worker.Exiting? ==> s.worker.status != Completed
    ensures FinishMove(s, Decide(s, w))
  {
    hide Decide, FinishMove;
    if s.worker.InEffect? { EffectFinish(s, w); } else if s.worker.Entering? { EnterFinish(s, w); } else { OtherFinish(s, w); }
  }

  lemma CleanTally(s: State, run: Run)
    requires Live(s) && AttemptingAt(s, s.worker) && s.worker == Tallying(run) && TallyStatus(s, run.job) == Completed
    ensures AllConfirmed(s, run.job)
  {
    forall i | i in s.items && s.items[i].job == run.job ensures s.items[i].status == ItemConfirmed {
      assert !HasItem(s, run.job, ItemUncertain) && !HasItem(s, run.job, ItemPending);
      assert !HasItem(s, run.job, SkippedChanged) && !HasItem(s, run.job, SkippedCancelled);
      assert s.items[i].status != Attempting;
    }
  }

  lemma CompletedStays(s: State, act: Act, t: State, j: JobId)
    requires Live(s) && TurnAt(s, s.worker) && AllConfirmed(s, j) && OutcomeMove(s, act) && TookItems(s, act, t) && SameShape(s, t)
    requires j in s.jobs && s.jobs[j].status != Running
    ensures AllConfirmed(t, j)
  {
    hide OnlyOneRuns, SettledAt, Applies, StatusAt;
  }

  lemma TookKeepsCompleted(s: State, act: Act, t: State)
    requires Live(s) && TurnAt(s, s.worker) && AttemptingAt(s, s.worker) && OutcomesKept(s) && SameShape(s, t)
    requires OutcomeMove(s, act) && FinishMove(s, act) && Took(s, act, t) && TookItems(s, act, t)
    ensures forall j :: j in t.jobs && t.jobs[j].status == Completed ==> AllConfirmed(t, j)
    ensures FinishesHonestly(t, t.worker)
  {
    forall j | j in t.jobs && t.jobs[j].status == Completed ensures AllConfirmed(t, j) {
      if s.jobs[j].status == Completed {
        CompletedStays(s, act, t, j);
      } else {
        assert s.worker == Finishing(j, Completed) && t.items == s.items;
      }
    }
    if s.worker.Tallying? && TallyStatus(s, s.worker.run.job) == Completed { CleanTally(s, s.worker.run); }
    hide TurnAt, AttemptingAt, TallyStatus, OutcomeMove, ConfirmedAt, ClosedAt;
  }

  lemma WorkerKeepsOutcomes(s: State, w: WorkerStep)
    requires Keyed(s) && Live(s) && ItemsKept(s) && EnginesKept(s) && OutcomesKept(s)
    ensures OutcomesKept(WorkerNext(s, w))
  {
    var act, t := Decide(s, w), WorkerNext(s, w);
    DecideOutcome(s, w);
    DecideFinish(s, w);
    WorkerKeepsShape(s, w);
    WorkerTakes(s, w);
    WorkerTakesItems(s, w);
    WorkerTakesEngines(s, w);
    WorkerTakesNotes(s, w);
    hide Decide, WorkerNext, Live, RestAt, TurnAt, AttemptingAt, OutcomeMove, FinishMove, Took, TookItems, TookEngines, TookNotes,
      ConfirmedAt, NotesKeyed, ClosedAt, AllConfirmed, FinishesHonestly, AllLawful, RestPermitted, TurnPermitted, StageAt, AttemptAt,
      OwnAttempts, NobodyElses;
    forall i | i in t.items ensures ConfirmedAt(t, i) { TookKeepsConfirmed(s, act, t, i); }
    TookKeepsNotes(s, act, t);
    TookKeepsClosed(s, act, t);
    TookKeepsCompleted(s, act, t);
  }

  // ----- the web process, crashes and restarts -----

  /** Recorded outcomes stand, and no note about an item is written. */
  ghost predicate OutcomesFramed(s: State, t: State) {
    (forall i: ItemId :: Demoted(i) in t.log <==> Demoted(i) in s.log) &&
    (forall i: ItemId :: Matched(i) in s.log ==> Matched(i) in t.log) &&
    s.nextItem <= t.nextItem &&
    (forall i :: i in t.items ==>
       if i in s.items then
         t.items[i].job == s.items[i].job && t.items[i].attempt == s.items[i].attempt &&
         (t.items[i].status == s.items[i].status || (s.items[i].status == Attempting && t.items[i].status == ItemUncertain))
       else i >= s.nextItem && t.items[i].status == ItemPending && t.items[i].job !in s.jobs) &&
    (forall j :: j in t.jobs && t.jobs[j].status == Completed ==> j in s.jobs && s.jobs[j].status == Completed)
  }

  lemma FramedKeepsConfirmed(s: State, t: State, i: ItemId)
    requires OutcomesKept(s) && OutcomesFramed(s, t) && i in t.items && ItemFramed(s, t, i)
    requires i in s.items ==> s.items[i].job in s.jobs
    ensures ConfirmedAt(t, i)
  {
    if i in s.items { assert ConfirmedAt(s, i); }
    hide AttemptConfirmed, AllConfirmed, ClosedAt, FinishesHonestly;
  }

  lemma FramedKeepsOutcomes(s: State, t: State)
    requires Live(s) && OutcomesKept(s) && EnginesFramed(s, t) && OutcomesFramed(s, t)
    requires forall i :: i in s.items ==> s.items[i].job in s.jobs
    requires JobOf(s.worker).Some? ==> JobOf(s.worker).value < s.nextJob
    requires forall i :: i in t.items && i !in s.items ==> t.items[i].job >= s.nextJob
    ensures OutcomesKept(t)
  {
    forall i | i in t.items ensures ConfirmedAt(t, i) {
      assert ItemFramed(s, t, i);
      FramedKeepsConfirmed(s, t, i);
    }
    forall j | j in t.jobs && t.jobs[j].status == Completed ensures AllConfirmed(t, j) { assert AllConfirmed(s, j); }
    assert t.worker.Finishing? && t.worker.status == Completed ==> AllConfirmed(s, t.worker.job);
    hide AttemptConfirmed, ItemFramed, ConfirmedAt, Live;
    assert t.worker.InEffect? ==> PastPolicyCheck(t.worker) && RunOf(t.worker).value == t.worker.turn.run;
  }

  lemma LogKeepsNotes(log: seq<Entry>, e: Entry)
    requires !e.Demoted?
    ensures forall i: ItemId :: Demoted(i) in log + [e] <==> Demoted(i) in log
    ensures forall i: ItemId :: Matched(i) in log ==> Matched(i) in log + [e]
  {
  }

  lemma SettingFramesOutcomes(s: State, w: WebStep)
    requires Keyed(s) && !Rewrites(w)
    ensures OutcomesFramed(s, WebNext(s, w))
  {
    WebKeepsShape(s, w);
    var t := WebNext(s, w);
    assert t.log == s.log || t.log == s.log + [DeletionRequested(w.did)] by { hide Allowed, JobAfter; }
    if t.log != s.log { LogKeepsNotes(s.log, DeletionRequested(w.did)); }
    hide WebNext;
  }

  lemma ApproveFramesOutcomes(s: State, w: WebStep, t: State)
    requires Keyed(s) && w.Approve? && HostedInvariants.Added(s, w, t)
    ensures OutcomesFramed(s, t)
  {
    hide ItemKeyed, JobKeyed;
  }

  lemma LeftFramesOutcomes(s: State, did: Did, t: State)
    requires Left(s, did, t)
    ensures OutcomesFramed(s, t)
  {
    LogKeepsNotes(s.log, Entry.Erased(did, s.nextJob));
  }

  lemma WebKeepsOutcomes(s: State, w: WebStep)
    requires Keyed(s) && Live(s) && OutcomesKept(s)
    ensures OutcomesKept(WebNext(s, w))
  {
    var t := WebNext(s, w);
    if Allowed(s, w) {
      forall i | i in s.items ensures s.items[i].job in s.jobs { assert ItemKeyed(s, i); }
      if w.Approve? { ApproveAdds(s, w); ApproveFramesEngines(s, w, t); ApproveFramesOutcomes(s, w, t); }
      else if w.Purge? { PurgeLeaves(s, w.did, w.engineRemoved); LeftFramesEngines(s, w.did, t); LeftFramesOutcomes(s, w.did, t); }
      else { WebKeepsShape(s, w); SettingFramesEngines(s, w); SettingFramesOutcomes(s, w); }
      hide WebNext, OutcomesFramed, EnginesFramed, OutcomesKept, ItemKeyed, JobKeyed, OnlyOneRuns, SettledAt;
      FramedKeepsOutcomes(s, t);
    }
    hide OutcomesKept;
  }

  lemma RestartKeepsOutcomes(s: State, t: State)
    requires Keyed(s) && Live(s) && OutcomesKept(s) && EnginesFramed(s, t) && OutcomesFramed(s, t) && SameShape(s, t)
    ensures OutcomesKept(t)
  {
    forall i | i in s.items ensures s.items[i].job in s.jobs { assert ItemKeyed(s, i); }
    FramedKeepsOutcomes(s, t);
    hide OutcomesKept;
  }

  lemma RecoverFramesOutcomes(s: State)
    ensures OutcomesFramed(s, RecoverTx(s))
    ensures forall i :: i in s.items ==> i in RecoverTx(s).items && RecoverTx(s).items[i].attempt == s.items[i].attempt
  {
    hide HasItem;
  }

  lemma RecoverKeepsOutcomes(s: State)
    requires Keyed(s) && Live(s) && OutcomesKept(s)
    ensures OutcomesKept(RecoverTx(s))
  {
    RecoverKeepsShape(s);
    RecoverFramesOutcomes(s);
    hide RecoverTx, OutcomesKept, Live, OutcomesFramed;
    RestartFramesEngines(s, RecoverTx(s)) by { assert RecoverTx(s).engines == s.engines && RecoverTx(s).worker.Idle? by { RecoverIsQuiet(s); } }
    RestartKeepsOutcomes(s, RecoverTx(s));
  }

  lemma RecoverIsQuiet(s: State)
    ensures RecoverTx(s).engines == s.engines && RecoverTx(s).worker.Idle?
  {
  }

  lemma CrashKeepsOutcomes(s: State)
    requires Keyed(s) && Live(s) && OutcomesKept(s)
    ensures OutcomesKept(s.(worker := Down))
  {
    RestartFramesEngines(s, s.(worker := Down));
    RestartKeepsOutcomes(s, s.(worker := Down));
  }
}
