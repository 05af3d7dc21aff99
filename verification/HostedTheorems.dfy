/** What every run of the hosted service guarantees: any interleaving of worker steps, web requests,
    crashes and restarts from the empty service. */
module HostedTheorems {
  import opened Wrappers
  import opened Policy
  import opened Ledger
  import opened Hosted
  import opened HostedInvariants
  import opened HostedItems
  import opened HostedEngines
  import opened HostedWrites
  import opened HostedDeletion
  import opened HostedOutcomes

  ghost predicate Kept(s: State) {
    Keyed(s) && OneItemPerSubject(s) && Live(s) && ItemsKept(s) && EnginesKept(s) && WritesKept(s) && DeletionKept(s) && OutcomesKept(s)
  }

  lemma WorkerKeeps(s: State, w: WorkerStep)
    requires Kept(s)
    ensures Kept(WorkerNext(s, w))
  {
    WorkerKeepsShape(s, w);
    ShapeKeepsKeyed(s, WorkerNext(s, w));
    WorkerKeepsLive(s, w);
    WorkerKeepsItems(s, w);
    WorkerKeepsEngines(s, w);
    WorkerKeepsWrites(s, w);
    WorkerKeepsDeletion(s, w);
    WorkerKeepsOutcomes(s, w);
    hide *;
  }

  lemma WebKeeps(s: State, w: WebStep)
    requires Kept(s)
    ensures Kept(WebNext(s, w))
  {
    WebKeepsKeyed(s, w);
    WebKeepsLive(s, w);
    WebKeepsItems(s, w);
    WebKeepsEngines(s, w);
    WebKeepsWrites(s, w);
    WebKeepsDeletion(s, w);
    WebKeepsOutcomes(s, w);
    hide *;
  }

  lemma RecoverKeeps(s: State)
    requires Kept(s)
    ensures Kept(RecoverTx(s))
  {
    RecoverKeepsShape(s);
    ShapeKeepsKeyed(s, RecoverTx(s));
    RecoverKeepsLive(s);
    RecoverKeepsItems(s);
    RecoverKeepsEngines(s);
    RecoverKeepsWrites(s);
    RestartKeepsDeletion(s, RecoverTx(s));
    RecoverKeepsOutcomes(s);
    hide *;
  }

  lemma CrashKeepsShape(s: State)
    requires Live(s)
    ensures SameShape(s, s.(worker := Down)) && Live(s.(worker := Down))
  {
  }

  lemma CrashKeeps(s: State)
    requires Kept(s)
    ensures Kept(s.(worker := Down))
  {
    var t := s.(worker := Down);
    CrashKeepsShape(s);
    hide Keyed, OneItemPerSubject, Live, ItemsKept, EnginesKept, WritesKept, DeletionKept, OutcomesKept, SameShape;
    ShapeKeepsKeyed(s, t);
    CrashKeepsItems(s);
    CrashKeepsEngines(s);
    CrashKeepsWrites(s);
    RestartKeepsDeletion(s, t);
    CrashKeepsOutcomes(s);
  }

  lemma StartsKept()
    ensures Kept(INITIAL)
  {
  }

  lemma StepKeeps(s: State, a: Step)
    requires Kept(s)
    ensures Kept(Next(s, a))
  {
    hide Kept, WorkerNext, WebNext, RecoverTx;
    match a
    case Worker(w) => WorkerKeeps(s, w);
    case Web(w) => WebKeeps(s, w);
    case Crash => CrashKeeps(s);
    case Recover => RecoverKeeps(s);
  }

  lemma {:induction false} RunKeeps(states: seq<State>, steps: seq<Step>, n: nat)
    requires IsRun(states, steps) && n <= |steps|
    ensures Kept(states[n])
  {
    hide Kept, Next;
    if n == 0 {
      StartsKept();
    } else {
      RunKeeps(states, steps, n - 1);
      assert Moved(states, steps, n - 1);
      StepKeeps(states[n - 1], steps[n - 1]);
    }
  }

  /** The invariant of every run. */
  lemma AlwaysKept(s: State)
    requires Reachable(s)
    ensures Kept(s)
  {
    hide Kept;
    var states, steps :| IsRun(states, steps) && states[|steps|] == s;
    RunKeeps(states, steps, |steps|);
  }

  // ----- the guarantees -----

  /** No item and no reservation is ever sent twice, in any run. */
  lemma NoReplay(s: State, k: nat, l: nat)
    requires Reachable(s)
    requires k < l < |s.log| && s.log[k].Wrote? && s.log[l].Wrote?
    ensures s.log[k].write.item != s.log[l].write.item && s.log[k].write.effect != s.log[l].write.effect
  {
    AlwaysKept(s);
  }

  /** At the moment a request leaves, its journal row is committed and is the journal's last word, its item is
      marked with that very attempt, its reservation is open, its job is running, the row is exactly what the
      fresh preview plans, and nothing was sent for the item before. */
  lemma RequestIsPrepared(s: State, w: WorkerStep)
    requires Reachable(s)
    requires Decide(s, w).change.Remotely?
    ensures var r := Decide(s, w).change.write; var h := History(s, r.did);
            h != [] && h[|h| - 1] == Begun(r.row.subject, r.kind, r.attempt) &&
            r.item in s.items && s.items[r.item] == Item(r.job, r.row, Attempting, Some(r.attempt)) &&
            r.effect in s.effects && s.effects[r.effect] == EffectRow(r.did, EffectAttempting) &&
            r.job in s.jobs && s.jobs[r.job].status == Running && s.jobs[r.job].did == r.did && KindOf(s.jobs[r.job].kind) == r.kind &&
            Applies(s.worker.turn.run, s.worker.turn.rows, r.row) &&
            !Written(s.log, r.item) && !Spent(s.log, r.effect)
  {
    AlwaysKept(s);
    DecideWrites(s, w);
    hide Decide, AllLawful, RestPermitted, TurnPermitted, AttemptAt, OwnAttempts, NobodyElses, Applies, AllKeyed, SentOnce,
      DeletionKept, OutcomesKept, AttemptingAt, RestAt, Keyed;
  }

  /** Every request was approved: the account, the kind of action and the exact row. What is still
      stored about a requested item says so, and its reservation still counts. */
  lemma EveryRequestWasApproved(s: State, k: nat)
    requires Reachable(s)
    requires k < |s.log| && s.log[k].Wrote?
    ensures var w := s.log[k].write;
            w.job in s.approvals && s.approvals[w.job].did == w.did && KindOf(s.approvals[w.job].kind) == w.kind &&
            w.row in s.approvals[w.job].rows &&
            (w.item in s.items ==>
               s.items[w.item].attempt == Some(w.attempt) && s.items[w.item].status in {Attempting, ItemConfirmed, ItemUncertain}) &&
            (w.effect in s.effects ==> s.effects[w.effect].did == w.did && s.effects[w.effect].status != EffectRefused)
  {
    AlwaysKept(s);
    assert WriteKeyed(s, s.log[k].write);
  }

  /** The worker closes only reservations that are still open, so a refused one never counts again. */
  lemma ReservationsAreNotRevived(s: State, w: WorkerStep)
    requires Reachable(s)
    requires Decide(s, w).change.EffectTo?
    ensures var c := Decide(s, w).change;
            c.effect in s.effects && s.effects[c.effect].status == EffectAttempting &&
            (c.effectStatus == EffectRefused ==> !Spent(s.log, c.effect))
  {
    AlwaysKept(s);
    DecideWrites(s, w);
    assert UnsentAt(s, s.worker);
    hide Decide, Keyed, Live, ItemsKept, EnginesKept, DeletionKept, OutcomesKept, AllKeyed, SentOnce;
  }

  /** A confirmed item's matching read is on record, and its journal attempt reads confirmed exactly
      unless the handler around the effect has overwritten it. */
  lemma ConfirmedItemsAreBacked(s: State, i: ItemId)
    requires Reachable(s)
    requires i in s.items && s.items[i].status == ItemConfirmed
    ensures s.items[i].job in s.jobs && s.items[i].attempt.Some? && Matched(i) in s.log &&
            var h, n := History(s, DidOf(s, i)), s.items[i].attempt.value;
            Belongs(h, n, s.items[i].row.subject, KindOf(s.jobs[s.items[i].job].kind)) &&
            (Replay(h).attempts[n].status == AttemptStatus.Confirmed <==> Demoted(i) !in s.log)
  {
    AlwaysKept(s);
    assert ItemKeyed(s, i) && AttemptAt(s, i) && ConfirmedAt(s, i);
  }

  /** A completed job's items were all confirmed by a matching read. */
  lemma CompletedJobsAreConfirmed(s: State, j: JobId, i: ItemId)
    requires Reachable(s)
    requires j in s.jobs && s.jobs[j].status == Completed && i in s.items && s.items[i].job == j
    ensures s.items[i].status == ItemConfirmed && Matched(i) in s.log
  {
    AlwaysKept(s);
    assert AllConfirmed(s, j) && ConfirmedAt(s, i);
  }

  /** When a run gets to its tally, the outcome is exact. */
  lemma TallyIsExact(s: State, run: Run)
    requires Reachable(s)
    requires s.worker == Tallying(run)
    ensures var outcome := TallyStatus(s, run.job);
            (outcome == Completed <==> AllConfirmed(s, run.job)) &&
            (outcome == NeedsReview <==> HasItem(s, run.job, ItemUncertain)) &&
            (outcome == Cancelled ==> HasItem(s, run.job, ItemPending)) &&
            (outcome == CompletedWithSkips ==> !HasItem(s, run.job, ItemPending) && !AllConfirmed(s, run.job))
  {
    AlwaysKept(s);
    if TallyStatus(s, run.job) == Completed { CleanTally(s, run); }
  }

  /** In one account's journal two requests of a kind for a subject are separated by a confirmed
      request of the other kind. */
  lemma HostedRequestsAlternate(s: State, d: Did, i: nat, j: nat)
    requires Reachable(s)
    requires d in s.engines
    requires var h := s.engines[d];
             i < j < |h| && h[i].Sent? && h[j].Sent? && h[i].did == h[j].did && h[i].kind == h[j].kind
    ensures var h := s.engines[d];
            exists k :: i < k < j && h[k].Finished? && h[k].did == h[i].did && h[k].kind != h[i].kind && h[k].success
  {
    AlwaysKept(s);
    var h := s.engines[d];
    assert Lawful(h) && ActionsOnly(h);
    RequestsAlternate(h, i, j, h[i].did, h[i].kind);
    var k :| i < k < j && ReleasesKind(h[k], h[i].did, h[i].kind);
    assert !h[k].Resumed?;
  }

  /** After a deletion request at most one further request leaves for the account before the erasure. */
  lemma AtMostOneLateRequest(s: State, m: nat, k: nat, l: nat, d: Did)
    requires Reachable(s)
    requires m < k < l < |s.log| && s.log[m] == DeletionRequested(d)
    requires s.log[k].Wrote? && s.log[k].write.did == d && s.log[l].Wrote? && s.log[l].write.did == d
    ensures exists e :: m < e < l && s.log[e].Erased? && s.log[e].did == d
  {
    AlwaysKept(s);
    hide Keyed, Live;
    SecondWriteNeedsErasure(s.log, m, k, l, d);
  }

  /** After the erasure only jobs approved later act for the account. */
  lemma NothingActsAfterErasure(s: State, k: nat, l: nat)
    requires Reachable(s)
    requires k < l < |s.log| && s.log[k].Erased? && s.log[l].Wrote? && s.log[l].write.did == s.log[k].did
    ensures s.log[k].before <= s.log[l].write.job
  {
    AlwaysKept(s);
    assert ErasedStaysErased(s);
  }
}
