/** Runs in which the service's records say less than they seem to: a confirmed item outlives its confirmed
    journal attempt, and a job with an uncertain item is closed without review. */
module HostedWitnesses {
  import opened Wrappers
  import opened Policy
  import opened Planning
  import opened Ledger
  import opened Hosted
  import opened HostedSteps

  const OWNER: Did := "o"
  const SUBJECT: Did := "l"
  const OTHER: Did := "m"

  const SEEN := Remote(true, false, false, false, false, None, false, None)
  const MUTED := Remote(true, true, true, false, false, None, false, None)
  const ROW :=
    Row(SUBJECT, Quarantined, Evaluated(QuarantineRule), SEEN, MuteAction, false, Overrides(false, false, false), Untracked, false,
        false, {}, [])
  const SECOND := ROW.(subject := OTHER)
  const BATCH: WebStep := Approve(OWNER, 0, ApplyMutes, [ROW, SECOND])
  const RUN := Run(0, OWNER, 0, 1, ApplyMutes)
  const ROWS: map<Did, Row> := map[SUBJECT := ROW, OTHER := SECOND]
  const TURN := Turn(RUN, ROWS, 0, ROW, [1])
  const LAST := Turn(RUN, ROWS, 1, SECOND, [])

  /** One account, one policy, and one job with two items, the second not yet touched. */
  predicate Scene(s: State, job: JobStatus, status: ItemStatus, attempt: Option<nat>) {
    s.users == map[OWNER := true] && s.policies == map[0 := PolicyRow(OWNER, 1)] &&
    s.jobs == map[0 := Job(OWNER, 0, 1, ApplyMutes, job, false)] &&
    s.items == map[0 := Item(0, ROW, status, attempt), 1 := Item(0, SECOND, ItemPending, None)] &&
    s.deletions == {} && s.writesEnabled && OWNER in s.accountWrites
  }

  predicate Fresh(s: State) {
    s.jobs == map[] && s.items == map[] && s.deletions == {} && s.writesEnabled && s.engines == map[] && s.log == [] &&
    s.worker == Idle && s.nextJob == 0 && s.nextItem == 0
  }

  lemma Restarted() returns (s: State)
    ensures Reachable(s) && Fresh(s) && s.users == map[] && s.policies == map[] && s.nextPolicy == 0
  {
    InitialIsReachable();
    s := Next(INITIAL, Recover);
    ReachNext(INITIAL, Recover);
  }

  lemma SignedIn() returns (s: State)
    ensures Reachable(s) && Fresh(s) && s.users == map[OWNER := true] && s.policies == map[] && s.nextPolicy == 0
  {
    var r := Restarted();
    ReachNext(r, Web(SignIn(OWNER)));
    s := Next(r, Web(SignIn(OWNER)));
    hide Reachable;
  }

  lemma SignedUp() returns (s: State)
    ensures Reachable(s) && Fresh(s) && s.users == map[OWNER := true] && s.policies == map[] && s.nextPolicy == 0
    ensures OWNER in s.accountWrites
  {
    var u := SignedIn();
    ReachNext(u, Web(SetAccountWrites(OWNER, true)));
    s := Next(u, Web(SetAccountWrites(OWNER, true)));
    hide Reachable;
  }

  lemma Subscribed() returns (s: State)
    ensures Reachable(s) && Fresh(s) && s.users == map[OWNER := true] && s.policies == map[0 := PolicyRow(OWNER, 1)]
    ensures OWNER in s.accountWrites
  {
    var u := SignedUp();
    ReachNext(u, Web(CreatePolicy(OWNER)));
    s := Next(u, Web(CreatePolicy(OWNER)));
    hide Reachable;
  }

  lemma BatchAllowed(u: State)
    requires Fresh(u) && u.policies == map[0 := PolicyRow(OWNER, 1)] && OWNER in u.accountWrites
    ensures Allowed(u, BATCH) && NewItems(0, 0, BATCH.rows) == map[0 := Item(0, ROW, ItemPending, None), 1 := Item(0, SECOND, ItemPending, None)]
  {
    assert SUBJECT[0] != OTHER[0];
    assert DistinctSubjects(BATCH.rows);
    assert Within(0, 0, 2) && Within(1, 0, 2);
    assert NewItems(0, 0, BATCH.rows).Keys == {0, 1};
  }

  lemma Approved() returns (s: State)
    ensures Reachable(s) && Scene(s, Queued, ItemPending, None) && s.worker == Idle && s.engines == map[] && s.log == []
  {
    var u := Subscribed();
    BatchAllowed(u);
    ReachNext(u, Web(BATCH));
    s := Next(u, Web(BATCH));
    hide Reachable, Allowed, NewItems;
  }

  lemma Takes(s: State, w: WorkerStep, act: Act) returns (t: State)
    requires Reachable(s) && Decide(s, w) == act
    ensures Reachable(t) && t == Do(s, act.change).(worker := act.to)
  {
    ReachNext(s, Worker(w));
    t := Next(s, Worker(w));
    hide Do, Decide, Reachable;
  }

  /** A step whose journal and reservations do not matter. */
  lemma Goes(s: State, w: WorkerStep, act: Act) returns (t: State)
    requires Reachable(s) && Decide(s, w) == act
    ensures Reachable(t) && t.worker == act.to && t.users == s.users && t.policies == s.policies && t.deletions == s.deletions &&
            t.writesEnabled == s.writesEnabled && t.accountWrites == s.accountWrites
    ensures t.jobs == if act.change.JobTo? then WithJob(s.jobs, act.change.job, act.change.jobStatus) else s.jobs
    ensures t.items == if act.change.ItemTo? then WithItem(s.items, act.change.item, act.change.status, act.change.attempt)
                       else if act.change.SkipPending? then SkipItems(s.items, act.change.job) else s.items
  {
    t := Takes(s, w, act);
  }

  lemma Loaded() returns (t: State)
    ensures Reachable(t) && Scene(t, Running, ItemPending, None) && t.worker == Entering(RUN, Unchecked)
    ensures t.engines == map[] && t.log == []
  {
    hide Decide, Reachable;
    t := Approved();
    ClaimGoes(t, 0);
    t := Takes(t, Claim(0), Act(JobTo(0, Running), Claimed(0)));
    LoadGoes(t, 0);
    t := Takes(t, Load, Act(Nothing, Entering(RUN, Unchecked)));
  }

  lemma Entered() returns (t: State)
    ensures Reachable(t) && Scene(t, Running, ItemPending, None) && t.worker == Entering(RUN, Current)
    ensures t.engines == map[] && t.log == []
  {
    hide Decide, Reachable;
    t := Loaded();
    CheckDeletionGoes(t, RUN);
    t := Takes(t, CheckDeletion, Act(Nothing, Entering(RUN, NotDeleting)));
    CheckAccountGoes(t, RUN, false);
    t := Takes(t, CheckAccount(false), Act(Nothing, Entering(RUN, Connected)));
    CheckPolicyGoes(t, RUN);
    t := Takes(t, CheckPolicy, Act(Nothing, Entering(RUN, Current)));
  }

  lemma AtHand() returns (t: State)
    ensures Reachable(t) && Scene(t, Running, ItemPending, None) && t.worker == AtItem(TURN, Undeleted)
    ensures t.engines == map[] && t.log == []
  {
    hide Decide, Reachable;
    t := Entered();
    assert Planned(ROWS, JournalOf(t, OWNER)) && PendingItems(t, 0, [0, 1]);
    AcquireGoes(t, RUN, Receipt(ROWS, [0, 1]));
    t := Takes(t, Acquire(Receipt(ROWS, [0, 1])), Act(Nothing, Looping(RUN, ROWS, [0, 1])));
    NextItemGoes(t, RUN, ROWS, [0, 1]);
    assert [0, 1][1..] == [1];
    t := Takes(t, NextItem, Act(Nothing, AtItem(TURN, Undeleted)));
  }

  lemma Reservation() returns (t: State)
    ensures Reachable(t) && Scene(t, Running, ItemPending, None) && t.worker.Reserved? && t.worker.turn == TURN
    ensures t.engines == map[] && t.log == []
  {
    hide Decide, Reachable;
    t := AtHand();
    CheckCancelGoes(t, TURN);
    t := Takes(t, CheckCancel, Act(Nothing, AtItem(TURN, Chosen)));
    ObserveGoes(t, TURN, StateSame);
    t := Takes(t, Observe(StateSame), Act(Nothing, AtItem(TURN, Unchanged)));
    ReserveGoes(t, TURN, true);
    t := Takes(t, Reserve(true), Act(ReserveEffect(OWNER), Reserved(TURN, t.nextEffect)));
  }

  const BEGUN := Begun(SUBJECT, Mute, 0)
  const SENT := Sent(SUBJECT, Mute, 0)

  lemma Journals() returns (t: State)
    ensures Reachable(t) && Scene(t, Running, Attempting, Some(0)) && t.engines == map[OWNER := [BEGUN]]
    ensures t.worker.InEffect? && t.worker == InEffect(TURN, t.worker.effect, 0, Marked) && t.log == []
  {
    hide Decide, Reachable;
    t := Reservation();
    var e := t.worker.effect;
    BeginGoes(t, TURN, e, Returned);
    t := Takes(t, Begin(Returned), Act(JournalTo(OWNER, BEGUN, true, None), InEffect(TURN, e, 0, Journalled)));
    assert [] + [BEGUN] == [BEGUN];
    assert t.engines == map[OWNER := [BEGUN]];
    MarkGoes(t, TURN, e, 0);
    t := Takes(t, Mark, Act(ItemTo(0, Attempting, Some(0)), InEffect(TURN, e, 0, Marked)));
  }

  lemma Passes() returns (t: State)
    ensures Reachable(t) && Scene(t, Running, Attempting, Some(0)) && t.engines == map[OWNER := [BEGUN]]
    ensures t.worker.InEffect? && t.worker == InEffect(TURN, t.worker.effect, 0, Gated)
  {
    hide Decide, Reachable;
    t := Journals();
    CheckGateGoes(t, TURN, t.worker.effect, 0, true);
    t := Takes(t, CheckGate(true), Act(Nothing, InEffect(TURN, t.worker.effect, 0, Gated)));
  }

  lemma Requests() returns (t: State)
    ensures Reachable(t) && Scene(t, Running, Attempting, Some(0)) && t.engines == map[OWNER := [BEGUN, SENT]]
    ensures t.worker.InEffect? && t.worker == InEffect(TURN, t.worker.effect, 0, Requested)
  {
    hide Decide, Reachable;
    t := Passes();
    var e := t.worker.effect;
    SendGoes(t, TURN, e, 0, false);
    t := Takes(t, Send(false), Act(Remotely(Write(0, 0, OWNER, ROW, Mute, e, 0)), InEffect(TURN, e, 0, Requested)));
    assert [BEGUN] + [SENT] == [BEGUN, SENT];
  }

  lemma Closes() returns (t: State)
    ensures Reachable(t) && Scene(t, Running, Attempting, Some(0))
    ensures t.engines == map[OWNER := [BEGUN, SENT, Finished(SUBJECT, Mute, 0, true)]]
    ensures t.worker.InEffect? && t.worker == InEffect(TURN, t.worker.effect, 0, Closed(true))
  {
    hide Decide, Reachable;
    t := Requests();
    var e := t.worker.effect;
    var answers := [Some(MUTED)];
    assert Hosted.Confirms(Mute, answers[0]);
    ConfirmGoes(t, TURN, e, 0, answers);
    t := Takes(t, Confirm(answers), Act(Observed(0), InEffect(TURN, e, 0, ReadBack(true))));
    FinishGoes(t, TURN, e, 0, ReadBack(true), Returned);
    var done := Finished(SUBJECT, Mute, 0, true);
    t := Takes(t, WorkerStep.Finish(Returned), Act(JournalTo(OWNER, done, true, None), InEffect(TURN, e, 0, Closed(true))));
    assert [BEGUN, SENT] + [done] == [BEGUN, SENT, done];
  }

  /** Closing the reservation raises, the handler journals the attempt as unresolved, and its answer is
      lost: the item stays confirmed while its attempt no longer is. */
  lemma ConfirmedItemLosesItsAttempt() returns (s: State)
    ensures Reachable(s) && 0 in s.items && s.items[0].status == ItemConfirmed && s.items[0].attempt == Some(0)
    ensures 0 in s.jobs && s.jobs[0].did == OWNER && s.worker == Finishing(0, Failed)
    ensures |JournalOf(s, OWNER).attempts| > 0 && JournalOf(s, OWNER).attempts[0].status == NotConfirmed
  {
    hide Decide, Reachable;
    s := Closes();
    var e := s.worker.effect;
    RecordGoes(s, TURN, e, 0, Closed(true));
    s := Takes(s, Record, Act(ItemTo(0, ItemConfirmed, Some(0)), InEffect(TURN, e, 0, Recorded(true))));
    HandledThrowGoes(s, TURN, e, 0, Recorded(true));
    s := Takes(s, Throw, Act(Nothing, InEffect(TURN, e, 0, Caught)));
    FinishGoes(s, TURN, e, 0, Caught, Raised(true));
    var undone := Finished(SUBJECT, Mute, 0, false);
    var h := History(s, OWNER);
    s := Takes(s, WorkerStep.Finish(Raised(true)), Act(JournalTo(OWNER, undone, true, Some(0)), Finishing(0, Failed)));
    assert History(s, OWNER) == h + [undone];
    AttemptCloses(h, undone);
  }

  lemma AttemptCloses(h: seq<Event>, e: Event)
    requires h == [BEGUN, SENT, Finished(SUBJECT, Mute, 0, true)] && e == Finished(SUBJECT, Mute, 0, false)
    ensures |Replay(h + [e]).attempts| > 0 && Replay(h + [e]).attempts[0].status == NotConfirmed
  {
    ReplayAppend(h, e);
    ReplayAppend([BEGUN, SENT], h[2]);
    ReplayAppend([BEGUN], SENT);
    ReplayAppend([], BEGUN);
    assert [] + [BEGUN] == [BEGUN] && [BEGUN] + [SENT] == [BEGUN, SENT] && [BEGUN, SENT] + [h[2]] == h;
  }

  // ----- an uncertain item hidden by an early exit -----

  /** The request raised, and the handler closed its journal row. */
  lemma Raises() returns (t: State)
    ensures Reachable(t) && Scene(t, Running, Attempting, Some(0))
    ensures t.worker.InEffect? && t.worker == InEffect(TURN, t.worker.effect, 0, CaughtClosed)
  {
    hide Decide, Reachable;
    t := Passes();
    var e := t.worker.effect;
    SendGoes(t, TURN, e, 0, true);
    t := Takes(t, Send(true), Act(Remotely(Write(0, 0, OWNER, ROW, Mute, e, 0)), InEffect(TURN, e, 0, Caught)));
    FinishGoes(t, TURN, e, 0, Caught, Returned);
    t := Takes(t, WorkerStep.Finish(Returned),
               Act(JournalTo(OWNER, Finished(SUBJECT, Mute, 0, false), true, None), InEffect(TURN, e, 0, CaughtClosed)));
  }

  /** The handler leaves the first item uncertain and the loop goes on. */
  lemma Doubts() returns (t: State)
    ensures Reachable(t) && Scene(t, Running, ItemUncertain, Some(0)) && t.worker == Looping(RUN, ROWS, [1])
  {
    hide Decide, Reachable;
    t := Raises();
    var e := t.worker.effect;
    RecordGoes(t, TURN, e, 0, CaughtClosed);
    t := Goes(t, Record, Act(ItemTo(0, ItemUncertain, Some(0)), InEffect(TURN, e, 0, CaughtRecorded)));
    CloseEffectGoes(t, TURN, e, 0, CaughtRecorded);
    t := Goes(t, CloseEffect, Act(EffectTo(e, EffectUncertain), Looping(RUN, ROWS, [1])));
  }

  /** A rate limit at the second item queues the job again although the first is uncertain. */
  lemma RateLimitRequeuesDoubt() returns (t: State)
    ensures Reachable(t) && Scene(t, Queued, ItemUncertain, Some(0)) && t.worker == Idle
  {
    hide Decide, Reachable;
    t := Doubts();
    NextItemGoes(t, RUN, ROWS, [1]);
    assert [1][1..] == [];
    t := Takes(t, NextItem, Act(Nothing, AtItem(LAST, Undeleted)));
    CheckCancelGoes(t, LAST);
    t := Takes(t, CheckCancel, Act(Nothing, AtItem(LAST, Chosen)));
    ObserveGoes(t, LAST, RateLimited);
    assert Applies(RUN, ROWS, SECOND);
    t := Takes(t, Observe(RateLimited), Act(JobTo(0, Queued), Idle));
  }

  /** The scene once the policy was edited: its revision is no longer the approved one. */
  predicate Edited(s: State, job: JobStatus, second: ItemStatus) {
    s.users == map[OWNER := true] && s.policies == map[0 := PolicyRow(OWNER, 2)] &&
    s.jobs == map[0 := Job(OWNER, 0, 1, ApplyMutes, job, false)] &&
    s.items == map[0 := Item(0, ROW, ItemUncertain, Some(0)), 1 := Item(0, SECOND, second, None)] &&
    s.deletions == {} && s.writesEnabled
  }

  lemma PolicyEdited() returns (t: State)
    ensures Reachable(t) && Edited(t, Queued, ItemPending) && t.worker == Idle
  {
    var s := RateLimitRequeuesDoubt();
    ReachNext(s, Web(EditPolicy(0)));
    t := Next(s, Web(EditPolicy(0)));
    hide Reachable;
  }

  lemma Returns() returns (t: State)
    ensures Reachable(t) && Edited(t, Running, ItemPending) && t.worker == Entering(RUN, NotDeleting)
  {
    hide Decide, Reachable;
    t := PolicyEdited();
    ClaimGoes(t, 0);
    t := Goes(t, Claim(0), Act(JobTo(0, Running), Claimed(0)));
    LoadGoes(t, 0);
    t := Goes(t, Load, Act(Nothing, Entering(RUN, Unchecked)));
    CheckDeletionGoes(t, RUN);
    t := Goes(t, CheckDeletion, Act(Nothing, Entering(RUN, NotDeleting)));
  }

  lemma TurnsAway() returns (t: State)
    ensures Reachable(t) && Edited(t, Running, ItemPending) && t.worker == Exiting(0, CompletedWithSkips)
  {
    hide Decide, Reachable;
    t := Returns();
    CheckAccountGoes(t, RUN, false);
    t := Goes(t, CheckAccount(false), Act(Nothing, Entering(RUN, Connected)));
    CheckPolicyGoes(t, RUN);
    t := Goes(t, CheckPolicy, Act(Nothing, Exiting(0, CompletedWithSkips)));
  }

  /** The next run finds the policy changed and closes the job as completed with skips: its uncertain item is
      never reviewed, since only a run that reaches its tally looks at what earlier runs left behind. */
  lemma PolicyChangeHidesDoubt() returns (t: State)
    ensures Reachable(t) && Edited(t, CompletedWithSkips, SkippedCancelled) && t.worker == Idle
    ensures HasItem(t, 0, ItemUncertain) && TallyStatus(t, 0) == NeedsReview
  {
    hide Decide, Reachable;
    t := TurnsAway();
    EndGoes(t);
    t := Goes(t, Skip, Act(SkipPending(0), Finishing(0, CompletedWithSkips)));
    EndGoes(t);
    t := Goes(t, FinishJob, Act(JobTo(0, CompletedWithSkips), Idle));
    assert t.items[0].status == ItemUncertain;
  }
}
