/** The worker process in its own form: claim, the run's loop over the items, the effect's handler
    and the restart. Between any two operations the web process acts and the process may die.
    The deeds record each step the worker took with the one durable write or remote call it made. */
module HostedWorker {
  import opened Wrappers
  import opened Policy
  import opened Planning
  import opened Ledger
  import opened Hosted
  import opened HostedItems
  import opened HostedTheorems
  import opened HostedSteps
  import opened HostedScripts

  /** The items the loop still has to visit are in the table. */
  lemma RestIsStored(s: State, run: Run, rows: map<Did, Row>, rest: seq<ItemId>)
    requires Reachable(s)
    requires s.worker == Looping(run, rows, rest) && rest != []
    ensures rest[0] in s.items
  {
    AlwaysKept(s);
    hide Reachable;
    assert RestOf(s.worker) == rest;
  }

  lemma WebKeepsPhase(s: State, w: WebStep)
    ensures WebNext(s, w).worker == s.worker
  {
    hide Allowed;
  }

  /** The fresh preview: a receipt, a rate limit or another failure. */
  method Acquires() returns (answer: Acquired) {
    var kind: int, reconnect: bool := *, *;
    var rows: map<Did, Row> := *;
    var pending: seq<ItemId> := *;
    answer := if kind == 0 then AcquireRateLimited else if kind == 1 then AcquireFailed(reconnect) else Receipt(rows, pending);
  }

  /** A call into the journal may raise, and then its commit may or may not have happened. */
  method Called() returns (call: Call) {
    var raised: bool, committed: bool := *, *;
    call := if raised then Raised(committed) else Returned;
  }

  /** What the fresh reads of an item say. */
  method Rechecked() returns (recheck: Recheck) {
    var kind: int, reconnect: bool := *, *;
    recheck := if kind == 0 then RateLimited else if kind == 1 then ReadFailed(reconnect) else if kind == 2 then StateChanged else StateSame;
  }

  class Worker {
    var s: State
    ghost var deeds: seq<Deed>

    /** The state is always one that a run of the step machine reaches. */
    ghost predicate Valid()
      reads this
    {
      Reachable(s)
    }

    constructor ()
      ensures Valid() && s == INITIAL && deeds == []
    {
      s, deeds := INITIAL, [];
      InitialIsReachable();
    }

    /** What other processes do meanwhile; this process may die. */
    method Others() returns (o: Ending)
      requires Valid()
      modifies this
      ensures Valid() && deeds == old(deeds) && !o.Threw? && s.worker == if o.Died? then Down else old(s.worker)
    {
      hide Reachable;
      var n: nat := *;
      while n > 0
        invariant Valid() && s.worker == old(s.worker) && deeds == old(deeds)
      {
        var w: WebStep := *;
        ReachNext(s, Web(w));
        WebKeepsPhase(s, w);
        s, n := WebNext(s, w), n - 1;
      }
      var dies: bool := *;
      if dies {
        ReachNext(s, Crash);
        s := s.(worker := Down);
        return Died;
      }
      return Went;
    }

    /** One operation, atomic and without failure. */
    method Go(w: WorkerStep)
      requires Valid()
      modifies this
      ensures Valid() && s == WorkerNext(old(s), w) && s.worker == Decide(old(s), w).to
      ensures deeds == old(deeds) + [Deed(w, Decide(old(s), w).change)]
    {
      hide Reachable, Decide, Do;
      ReachNext(s, Step.Worker(w));
      s, deeds := WorkerNext(s, w), deeds + [Deed(w, Decide(s, w).change)];
    }

    /** Before an operation outside the effect's handler: others act, and the operation may raise. */
    method Ready() returns (o: Ending)
      requires Valid() && Throwing(s.worker).Some?
      modifies this
      ensures Valid() && deeds == old(deeds) + if o.Threw? then [RAISED] else []
      ensures s.worker == (match o case Went => old(s.worker) case Threw => Finishing(Throwing(old(s.worker)).value, Failed) case Died => Down)
    {
      hide Reachable, Decide, WorkerNext;
      :- Others();
      var raises: bool := *;
      if raises {
        ThrowGoes(s);
        Go(Throw);
        return Threw;
      }
      return Went;
    }

    /** Where an operation that leaves the run may stand. */
    ghost predicate Left(o: Ending, j: JobId)
      reads this
    {
      s.worker == match o case Went => Idle case Threw => Finishing(j, Failed) case Died => Down
    }

    method FinishRun(j: JobId) returns (o: Ending)
      requires Valid() && s.worker.Finishing? && s.worker.job == j
      modifies this
      ensures Valid() && Left(o, j)
      ensures Along(o, old(deeds), deeds, [Ends(j, old(s.worker.status))])
    {
      hide Reachable, Decide, WorkerNext;
      :- Ready();
      EndGoes(s);
      Go(FinishJob);
      return Went;
    }

    /** Skip what is pending, then finish. */
    method ExitRun(j: JobId) returns (o: Ending)
      requires Valid() && s.worker.Exiting? && s.worker.job == j
      modifies this
      ensures Valid() && Left(o, j)
      ensures Along(o, old(deeds), deeds, [Skips(j), Ends(j, old(s.worker.status))])
    {
      hide Reachable, Decide, WorkerNext;
      :- Ready();
      EndGoes(s);
      Go(Skip);
      o := FinishRun(j);
      Onwards(o, old(deeds), [Skips(j)], deeds, [Ends(j, old(s.worker.status))], [Skips(j), Ends(j, old(s.worker.status))]);
    }

    /** Count the outcomes and finish. */
    method TallyRun(run: Run) returns (o: Ending, ghost tallied: State)
      requires Valid() && s.worker == Tallying(run)
      modifies this
      ensures Valid() && Left(o, run.job)
      ensures Reachable(tallied) && tallied.worker == Tallying(run)
      ensures Along(o, old(deeds), deeds, [COUNTS, Ends(run.job, TallyStatus(tallied, run.job))])
    {
      hide Reachable, Decide, WorkerNext, TallyStatus;
      tallied := s;
      o := Ready();
      if !o.Went? { return; }
      tallied := s;
      EndGoes(s);
      Go(Tally);
      ghost var end := Ends(run.job, s.worker.status);
      o := FinishRun(run.job);
      Onwards(o, old(deeds), [COUNTS], deeds, [end], [COUNTS, end]);
    }

    /** Skip what is pending, then tally. */
    method BreakRun(run: Run) returns (o: Ending, ghost verdict: JobStatus)
      requires Valid() && s.worker == Breaking(run)
      modifies this
      ensures Valid() && Left(o, run.job)
      ensures Along(o, old(deeds), deeds, [Skips(run.job), COUNTS, Ends(run.job, verdict)])
    {
      hide Reachable, Decide, WorkerNext, TallyStatus;
      verdict := Failed;
      o := Ready();
      if !o.Went? { return; }
      EndGoes(s);
      Go(Skip);
      ghost var tallied;
      o, tallied := TallyRun(run);
      verdict := TallyStatus(tallied, run.job);
      ghost var rest := [COUNTS, Ends(run.job, verdict)];
      Onwards(o, old(deeds), [Skips(run.job)], deeds, rest, [Skips(run.job), COUNTS, Ends(run.job, verdict)]);
    }

    /** A queued job, if writes are on; writing nothing otherwise. */
    method Claim() returns (job: Option<JobId>)
      requires Valid() && s.worker == Idle
      modifies this
      ensures Valid() && s.worker == if job.Some? then Claimed(job.value) else Idle
      ensures job.Some? ==>
                old(s).writesEnabled && job.value in old(s).jobs && old(s).jobs[job.value].status == Queued &&
                deeds == old(deeds) + [Deed(WorkerStep.Claim(job.value), JobTo(job.value, Running))]
      ensures job.None? ==> s == old(s) && deeds == old(deeds)
      ensures !old(s).writesEnabled ==> job.None?
    {
      hide Reachable, Decide, WorkerNext;
      var j: JobId := *;
      if !s.writesEnabled || j !in s.jobs || s.jobs[j].status != Queued {
        return None;
      }
      ClaimGoes(s, j);
      Go(WorkerStep.Claim(j));
      return Some(j);
    }

    /** The checks before the policy is previewed again. */
    method CheckRun(run: Run) returns (o: Ending, ghost end: CheckEnd, current: bool)
      requires Valid() && s.worker == Entering(run, Unchecked)
      modifies this
      ensures Valid() && Along(o, old(deeds), deeds, CheckScript(run.job, end))
      ensures o.Went? ==> (current <==> end.Passed?)
      ensures if o.Went? && current then s.worker == Entering(run, Current) else Left(o, run.job)
    {
      hide Reachable, Decide, WorkerNext, Along;
      ghost var before := deeds;
      var deletion := Deed(CheckDeletion, Nothing);
      current, end := false, Passed;
      o := Ready();
      if !o.Went? { Cut(o, before, [], deeds, CheckScript(run.job, end)); return; }
      CheckDeletionGoes(s, run);
      var deleting := run.did in s.deletions;
      Go(CheckDeletion);
      assert deeds == before + [deletion];
      if deleting {
        end := BeingDeleted;
        o := ExitRun(run.job);
        Onwards(o, before, [deletion], deeds, [Skips(run.job), Ends(run.job, Cancelled)], CheckScript(run.job, end));
        return;
      }
      o, end, current := CheckRunAccount(run, before);
    }

    method CheckRunAccount(run: Run, ghost before: seq<Deed>) returns (o: Ending, ghost end: CheckEnd, current: bool)
      requires Valid() && s.worker == Entering(run, NotDeleting) && deeds == before + [Deed(CheckDeletion, Nothing)]
      modifies this
      ensures Valid() && Along(o, before, deeds, CheckScript(run.job, end))
      ensures o.Went? ==> (current <==> end.Passed?)
      ensures if o.Went? && current then s.worker == Entering(run, Current) else Left(o, run.job)
    {
      hide Reachable, Decide, WorkerNext, Along;
      current, end := false, Passed;
      o := Ready();
      if !o.Went? { Cut(o, before, [Deed(CheckDeletion, Nothing)], deeds, CheckScript(run.job, end)); return; }
      var expired: bool := *;
      CheckAccountGoes(s, run, expired);
      var connected := run.did in s.users && s.users[run.did];
      Go(CheckAccount(expired));
      ghost var done := [Deed(CheckDeletion, Nothing), Deed(CheckAccount(expired), Nothing)];
      assert deeds == before + done;
      if expired {
        end := Expired;
        o := ExitRun(run.job);
        Onwards(o, before, done, deeds, [Skips(run.job), Ends(run.job, NeedsReview)], CheckScript(run.job, end));
      } else if !connected {
        end := NotConnected;
        o := FinishRun(run.job);
        Onwards(o, before, done, deeds, [Ends(run.job, Disconnected)], CheckScript(run.job, end));
      } else {
        o, end, current := CheckRunPolicy(run, before);
      }
    }

    method CheckRunPolicy(run: Run, ghost before: seq<Deed>) returns (o: Ending, ghost end: CheckEnd, current: bool)
      requires Valid() && s.worker == Entering(run, Connected)
      requires deeds == before + [Deed(CheckDeletion, Nothing), Deed(CheckAccount(false), Nothing)]
      modifies this
      ensures Valid() && Along(o, before, deeds, CheckScript(run.job, end))
      ensures o.Went? ==> (current <==> end.Passed?)
      ensures if o.Went? && current then s.worker == Entering(run, Current) else Left(o, run.job)
    {
      hide Reachable, Decide, WorkerNext, Along;
      current, end := false, Passed;
      ghost var done := [Deed(CheckDeletion, Nothing), Deed(CheckAccount(false), Nothing)];
      o := Ready();
      if !o.Went? { Cut(o, before, done, deeds, CheckScript(run.job, end)); return; }
      CheckPolicyGoes(s, run);
      var same := run.policy in s.policies && s.policies[run.policy] == PolicyRow(run.did, run.revision);
      Go(CheckPolicy);
      if !same {
        end := PolicyChanged;
        assert deeds == before + (done + [Deed(CheckPolicy, Nothing)]);
        o := ExitRun(run.job);
        Onwards(o, before, done + [Deed(CheckPolicy, Nothing)], deeds, [Skips(run.job), Ends(run.job, CompletedWithSkips)],
                CheckScript(run.job, end));
        return;
      }
      current := true;
      Through(before, deeds, CheckScript(run.job, Passed));
    }

    /** Up to three reads; the first that matches ends the wait. */
    method ConfirmEffect(kind: Kind) returns (answers: seq<Option<Remote>>, ok: bool)
      ensures ok == Confirmation(kind, answers) && |answers| <= 3
      ensures !ok ==> |answers| == 3
    {
      answers := [];
      while |answers| < 3
        invariant |answers| <= 3 && forall k :: 0 <= k < |answers| ==> !Confirms(kind, answers[k])
      {
        var answer: Option<Remote> := *;
        answers := answers + [answer];
        if Confirms(kind, answer) {
          assert Confirms(kind, answers[|answers| - 1]);
          return answers, true;
        }
      }
      ok := false;
    }

    /** The fresh preview and the job's pending items. */
    method AcquireRun(run: Run) returns (o: Ending, answer: Acquired)
      requires Valid() && s.worker == Entering(run, Current)
      modifies this
      ensures Valid() && Along(o, old(deeds), deeds, AcquireScript(run.job, answer))
      ensures if o.Went? && answer.Receipt? then s.worker == Looping(run, answer.rows, answer.pending) else Left(o, run.job)
    {
      hide Reachable, Decide, WorkerNext, Planned, PendingItems, Along;
      ghost var before := deeds;
      answer := AcquireRateLimited;
      o := Ready();
      if !o.Went? { Cut(o, before, [], deeds, AcquireScript(run.job, answer)); return; }
      answer := Acquires();
      if answer.Receipt? && !(Planned(answer.rows, JournalOf(s, run.did)) && PendingItems(s, run.job, answer.pending)) {
        answer := AcquireFailed(false);
      }
      AcquireGoes(s, run, answer);
      Go(Acquire(answer));
      assert deeds == before + [Deed(Acquire(answer), if answer.AcquireRateLimited? then JobTo(run.job, Queued) else Nothing)];
      if answer.AcquireFailed? {
        o := FinishRun(run.job);
        Onwards(o, before, [Deed(Acquire(answer), Nothing)], deeds, [Ends(run.job, if answer.reconnect then AwaitingReconnect else Failed)],
                AcquireScript(run.job, answer));
      } else {
        Through(before, deeds, AcquireScript(run.job, answer));
      }
    }

    /** An effect that was sent, or tried: the handler that never replays it. */
    method HandleEffect(t: Turn, e: EffectId, n: nat)
      returns (o: Ending, ghost call: Call, ghost demotes: Option<ItemId>)
      requires Valid() && s.worker == InEffect(t, e, n, Caught)
      modifies this
      ensures Valid() && if o.Went? then s.worker == Looping(t.run, t.rows, t.rest) else Left(o, t.run.job)
      ensures Along(o, old(deeds), deeds, HandlerScript(t, e, n, call, demotes))
    {
      hide Reachable, Decide, WorkerNext, Along;
      ghost var before := deeds;
      call, demotes := Returned, None;
      o := Others();
      if !o.Went? { Cut(o, before, [], deeds, HandlerScript(t, e, n, call, demotes)); return; }
      var answer := Called();
      call, demotes := answer, if Overwrites(s, t) then Some(t.item) else None;
      FinishGoes(s, t, e, n, Caught, answer);
      Go(WorkerStep.Finish(answer));
      if answer.Raised? {
        Escaped(before, deeds, HandlerScript(t, e, n, answer, demotes));
        return Threw, call, demotes;
      }
      o := RecordHandled(t, e, n, demotes, before);
    }

    method RecordHandled(t: Turn, e: EffectId, n: nat, ghost demotes: Option<ItemId>, ghost before: seq<Deed>)
      returns (o: Ending)
      requires Valid() && s.worker == InEffect(t, e, n, CaughtClosed)
      requires deeds == before + HandlerScript(t, e, n, Returned, demotes)[..1]
      modifies this
      ensures Valid() && if o.Went? then s.worker == Looping(t.run, t.rows, t.rest) else Left(o, t.run.job)
      ensures Along(o, before, deeds, HandlerScript(t, e, n, Returned, demotes))
    {
      hide Reachable, Decide, WorkerNext, Along;
      ghost var script := HandlerScript(t, e, n, Returned, demotes);
      o := Ready();
      if !o.Went? { Cut(o, before, script[..1], deeds, script); return; }
      RecordGoes(s, t, e, n, CaughtClosed);
      Go(Record);
      assert deeds == before + script[..2];
      o := Ready();
      if !o.Went? { Cut(o, before, script[..2], deeds, script); return; }
      CloseEffectGoes(s, t, e, n, CaughtRecorded);
      Go(CloseEffect);
      assert deeds == before + script;
      Through(before, deeds, script);
    }

    /** An operation inside the handled block: it may raise into the handler. */
    method Attempted(t: Turn, e: EffectId, n: nat, stage: Stage) returns (o: Ending)
      requires Valid() && s.worker == InEffect(t, e, n, stage) && (stage.Closed? || stage.Recorded?)
      modifies this
      ensures Valid() && deeds == old(deeds) + if o.Threw? then [RAISED] else []
      ensures s.worker == match o case Went => InEffect(t, e, n, stage) case Threw => InEffect(t, e, n, Caught) case Died => Down
    {
      hide Reachable, Decide, WorkerNext;
      :- Others();
      var raises: bool := *;
      if raises {
        HandledThrowGoes(s, t, e, n, stage);
        Go(Throw);
        return Threw;
      }
      return Went;
    }

    /** Send, read back, close the journal, record; any failure goes to the handler. */
    method SendEffect(t: Turn, e: EffectId, n: nat) returns (o: Ending, ghost how: Sending)
      requires Valid() && s.worker == InEffect(t, e, n, Gated)
      modifies this
      ensures Valid() && if o.Went? then s.worker == Looping(t.run, t.rows, t.rest) else Left(o, t.run.job)
      ensures SendsAlong(o, old(deeds), deeds, t, e, n, how)
    {
      hide Reachable, Decide, WorkerNext, Confirmation, Along;
      ghost var before := deeds;
      var raises: bool := *;
      SendGoes(s, t, e, n, raises);
      Go(Send(raises));
      if raises {
        ghost var call, demotes;
        o, call, demotes := HandleEffect(t, e, n);
        how := Handled([], RequestRaised, call, demotes);
        return;
      }
      var answers, ok := ConfirmEffect(KindOf(t.run.kind));
      ghost var script := SendScript(t, e, n, answers, Returned);
      how := Smooth(answers);
      o := Others();
      if !o.Went? { Cut(o, before, script[..1], deeds, script); return; }
      ConfirmGoes(s, t, e, n, answers);
      Go(Confirm(answers));
      o := Others();
      if !o.Went? { Cut(o, before, script[..2], deeds, script); return; }
      o, how := CloseJournal(t, e, n, answers, before);
    }

    method CloseJournal(t: Turn, e: EffectId, n: nat, answers: seq<Option<Remote>>, ghost before: seq<Deed>)
      returns (o: Ending, ghost how: Sending)
      requires Valid() && s.worker == InEffect(t, e, n, ReadBack(Confirmation(KindOf(t.run.kind), answers)))
      requires deeds == before + SendScript(t, e, n, answers, Returned)[..2]
      modifies this
      ensures Valid() && if o.Went? then s.worker == Looping(t.run, t.rows, t.rest) else Left(o, t.run.job)
      ensures SendsAlong(o, before, deeds, t, e, n, how)
    {
      hide Reachable, Decide, WorkerNext, Confirmation, Along;
      var ok := Confirmation(KindOf(t.run.kind), answers);
      var call := Called();
      FinishGoes(s, t, e, n, ReadBack(ok), call);
      Go(WorkerStep.Finish(call));
      if call.Raised? {
        ghost var closing, demotes;
        assert deeds == before + FailedScript(t, e, n, answers, JournalRaised(call.committed));
        o, closing, demotes := HandleEffect(t, e, n);
        how := Handled(answers, JournalRaised(call.committed), closing, demotes);
        return;
      }
      o, how := RecordEffect(t, e, n, answers, before);
    }

    method RecordEffect(t: Turn, e: EffectId, n: nat, answers: seq<Option<Remote>>, ghost before: seq<Deed>)
      returns (o: Ending, ghost how: Sending)
      requires Valid() && s.worker == InEffect(t, e, n, Closed(Confirmation(KindOf(t.run.kind), answers)))
      requires deeds == before + SendScript(t, e, n, answers, Returned)[..3]
      modifies this
      ensures Valid() && if o.Went? then s.worker == Looping(t.run, t.rows, t.rest) else Left(o, t.run.job)
      ensures SendsAlong(o, before, deeds, t, e, n, how)
    {
      hide Reachable, Decide, WorkerNext, Confirmation, Along;
      var ok := Confirmation(KindOf(t.run.kind), answers);
      ghost var script := SendScript(t, e, n, answers, Returned);
      ghost var call, demotes;
      how := Smooth(answers);
      o := Attempted(t, e, n, Closed(ok));
      if o.Threw? {
        assert deeds == before + FailedScript(t, e, n, answers, RecordRaised);
        o, call, demotes := HandleEffect(t, e, n);
        how := Handled(answers, RecordRaised, call, demotes);
        return;
      }
      if o.Died? { Cut(o, before, script[..3], deeds, script); return; }
      RecordGoes(s, t, e, n, Closed(ok));
      Go(Record);
      assert deeds == before + script[..4];
      o, how := CloseReservation(t, e, n, answers, before);
    }

    method CloseReservation(t: Turn, e: EffectId, n: nat, answers: seq<Option<Remote>>, ghost before: seq<Deed>)
      returns (o: Ending, ghost how: Sending)
      requires Valid() && s.worker == InEffect(t, e, n, Recorded(Confirmation(KindOf(t.run.kind), answers)))
      requires deeds == before + SendScript(t, e, n, answers, Returned)[..4]
      modifies this
      ensures Valid() && if o.Went? then s.worker == Looping(t.run, t.rows, t.rest) else Left(o, t.run.job)
      ensures SendsAlong(o, before, deeds, t, e, n, how)
    {
      hide Reachable, Decide, WorkerNext, Confirmation, Along;
      var ok := Confirmation(KindOf(t.run.kind), answers);
      ghost var script := SendScript(t, e, n, answers, Returned);
      ghost var call, demotes;
      how := Smooth(answers);
      o := Attempted(t, e, n, Recorded(ok));
      if o.Threw? {
        assert deeds == before + FailedScript(t, e, n, answers, ReservationRaised);
        o, call, demotes := HandleEffect(t, e, n);
        how := Handled(answers, ReservationRaised, call, demotes);
        return;
      }
      if o.Died? { Cut(o, before, script[..4], deeds, script); return; }
      CloseEffectGoes(s, t, e, n, Recorded(ok));
      Go(CloseEffect);
      assert deeds == before + script;
      Through(before, deeds, script);
    }

    /** The last gate refused: nothing was sent. */
    method RefuseEffect(t: Turn, e: EffectId, n: nat) returns (o: Ending, ghost call: Call)
      requires Valid() && s.worker == InEffect(t, e, n, Refused)
      modifies this
      ensures Valid() && Left(o, t.run.job)
      ensures Along(o, old(deeds), deeds, RefuseScript(t, e, n, call))
    {
      hide Reachable, Decide, WorkerNext, Along;
      ghost var before := deeds;
      call := Returned;
      o := Others();
      if !o.Went? { Cut(o, before, [], deeds, RefuseScript(t, e, n, call)); return; }
      var answer := Called();
      call := answer;
      FinishGoes(s, t, e, n, Refused, answer);
      Go(WorkerStep.Finish(answer));
      if answer.Raised? {
        Escaped(before, deeds, RefuseScript(t, e, n, answer));
        return Threw, call;
      }
      o := RecordRefused(t, e, n, before);
    }

    method RecordRefused(t: Turn, e: EffectId, n: nat, ghost before: seq<Deed>) returns (o: Ending)
      requires Valid() && s.worker == InEffect(t, e, n, RefusedClosed) && deeds == before + RefuseScript(t, e, n, Returned)[..1]
      modifies this
      ensures Valid() && Left(o, t.run.job) && Along(o, before, deeds, RefuseScript(t, e, n, Returned))
    {
      hide Reachable, Decide, WorkerNext, Along;
      ghost var script := RefuseScript(t, e, n, Returned);
      o := Ready();
      if !o.Went? { Cut(o, before, script[..1], deeds, script); return; }
      RecordGoes(s, t, e, n, RefusedClosed);
      Go(Record);
      assert deeds == before + script[..2];
      o := Ready();
      if !o.Went? { Cut(o, before, script[..2], deeds, script); return; }
      CloseEffectGoes(s, t, e, n, RefusedReset);
      Go(CloseEffect);
      assert deeds == before + script[..3];
      o := FinishRun(t.run.job);
      Onwards(o, before, script[..3], deeds, [Ends(t.run.job, Paused)], script);
    }

    /** Journal, mark, look at the gates once more, then send or refuse. */
    method PerformEffect(t: Turn, e: EffectId) returns (o: Ending, more: bool, ghost n: nat, ghost act: Effecting)
      requires Valid() && s.worker == Reserved(t, e)
      modifies this
      ensures Valid() && EffectAlong(o, old(deeds), deeds, t, e, n, act) && (o.Went? ==> (more <==> act.SentAt?))
      ensures if o.Went? && more then s.worker == Looping(t.run, t.rows, t.rest) else Left(o, t.run.job)
    {
      hide Reachable, Decide, WorkerNext, JournalOf, WritesAllowed, Along;
      ghost var before := deeds;
      more, n, act := false, 0, Unstarted;
      o := Ready();
      if !o.Went? { Cut(o, before, [], deeds, StartScript(t, n, true)); return; }
      var call := Called();
      BeginGoes(s, t, e, call);
      var attempt := |JournalOf(s, t.run.did).attempts|;
      n := attempt;
      Go(Begin(call));
      if call.Raised? {
        act := Unjournalled(call.committed);
        o := CloseUnjournalled(t, e, n, call, before);
        return;
      }
      ghost var script := StartScript(t, n, true);
      assert deeds == before + script[..1];
      o := Ready();
      if !o.Went? { Cut(o, before, script[..1], deeds, script); return; }
      MarkGoes(s, t, e, attempt);
      Go(Mark);
      assert deeds == before + script[..2];
      o := Others();
      if !o.Went? { Cut(o, before, script[..2], deeds, script); return; }
      o, more, act := GateEffect(t, e, attempt, before);
    }

    method CloseUnjournalled(t: Turn, e: EffectId, ghost n: nat, call: Call, ghost before: seq<Deed>)
      returns (o: Ending)
      requires Valid() && s.worker == BeginFailed(t, e) && deeds == before + UnjournalledScript(t, e, n, call)[..1]
      modifies this
      ensures Valid() && Left(o, t.run.job) && Along(o, before, deeds, UnjournalledScript(t, e, n, call))
    {
      hide Reachable, Decide, WorkerNext;
      ghost var script := UnjournalledScript(t, e, n, call);
      o := Ready();
      if !o.Went? { Cut(o, before, script[..1], deeds, script); return; }
      BeginFailedGoes(s, t, e);
      Go(CloseEffect);
      o := FinishRun(t.run.job);
      Onwards(o, before, script[..2], deeds, [Ends(t.run.job, Failed)], script);
    }

    method GateEffect(t: Turn, e: EffectId, n: nat, ghost before: seq<Deed>)
      returns (o: Ending, more: bool, ghost act: Effecting)
      requires Valid() && s.worker == InEffect(t, e, n, Marked) && deeds == before + StartScript(t, n, true)[..2]
      modifies this
      ensures Valid() && EffectAlong(o, before, deeds, t, e, n, act) && (o.Went? ==> (more <==> act.SentAt?))
      ensures if o.Went? && more then s.worker == Looping(t.run, t.rows, t.rest) else Left(o, t.run.job)
    {
      hide Reachable, Decide, WorkerNext, WritesAllowed;
      more := false;
      var readable: bool := *;
      CheckGateGoes(s, t, e, n, readable);
      var allowed := readable && WritesAllowed(s, t.run.did);
      Go(CheckGate(readable));
      assert deeds == before + StartScript(t, n, readable);
      act := if allowed then SentAt(Smooth([])) else RefusedAt(readable, Returned);
      o := Others();
      if !o.Went? { return; }
      if allowed {
        ghost var how;
        o, how := SendEffect(t, e, n);
        more, act := o.Went?, SentAt(how);
      } else {
        ghost var call;
        o, call := RefuseEffect(t, e, n);
        act := RefusedAt(readable, call);
      }
    }

    /** One approved item: still wanted, still applicable and unchanged, affordable; then its effect. */
    method PerformItem(t: Turn)
      returns (o: Ending, more: bool, ghost end: ItemEnd, ghost e: EffectId, ghost n: nat, ghost act: Effecting)
      requires Valid() && s.worker == AtItem(t, Undeleted)
      modifies this
      ensures Valid() && ItemAlong(o, old(deeds), deeds, t, end, e, n, act)
      ensures o.Went? ==> (more <==> end.Changed? || (end.Acts? && act.SentAt?))
      ensures if o.Went? && more then s.worker == Looping(t.run, t.rows, t.rest) else Left(o, t.run.job)
    {
      hide Reachable, Decide, WorkerNext, Along;
      ghost var before := deeds;
      more, end, e, n, act := false, Vanished, 0, 0, Unstarted;
      o := Ready();
      if !o.Went? { Cut(o, before, [], deeds, ItemScript(t, end)); return; }
      CheckCancelGoes(s, t);
      var known := t.run.job in s.jobs;
      var cancelled := known && s.jobs[t.run.job].cancel;
      Go(CheckCancel);
      assert deeds == before + [Deed(CheckCancel, Nothing)];
      if !known {
        o := FinishRun(t.run.job);
        Onwards(o, before, [Deed(CheckCancel, Nothing)], deeds, [Ends(t.run.job, Failed)], ItemScript(t, end));
      } else if cancelled {
        ghost var verdict;
        o, verdict := BreakRun(t.run);
        end := Cancelling(verdict);
        Onwards(o, before, [Deed(CheckCancel, Nothing)], deeds, [Skips(t.run.job), COUNTS, Ends(t.run.job, verdict)], ItemScript(t, end));
      } else {
        o, more, end, e, n, act := ObserveItem(t, before);
      }
    }

    method ObserveItem(t: Turn, ghost before: seq<Deed>)
      returns (o: Ending, more: bool, ghost end: ItemEnd, ghost e: EffectId, ghost n: nat, ghost act: Effecting)
      requires Valid() && s.worker == AtItem(t, Chosen) && deeds == before + [Deed(CheckCancel, Nothing)]
      modifies this
      ensures Valid() && ItemAlong(o, before, deeds, t, end, e, n, act)
      ensures o.Went? ==> (more <==> end.Changed? || (end.Acts? && act.SentAt?))
      ensures if o.Went? && more then s.worker == Looping(t.run, t.rows, t.rest) else Left(o, t.run.job)
    {
      hide Reachable, Decide, WorkerNext, Applies, Along;
      more, end, e, n, act := false, Limited, 0, 0, Unstarted;
      o := Ready();
      if !o.Went? { Cut(o, before, [Deed(CheckCancel, Nothing)], deeds, ItemScript(t, end)); return; }
      var recheck := Rechecked();
      ObserveGoes(s, t, recheck);
      Go(Observe(recheck));
      if !Applies(t.run, t.rows, t.row) || recheck.StateChanged? {
        more, end := true, Changed(recheck);
        Through(before, deeds, ItemScript(t, end));
        return;
      }
      if recheck.RateLimited? {
        Through(before, deeds, ItemScript(t, end));
      } else if recheck.ReadFailed? {
        end := Unread(recheck.reconnect);
        ghost var done := [Deed(CheckCancel, Nothing), Deed(Observe(recheck), Nothing)];
        assert deeds == before + done;
        o := FinishRun(t.run.job);
        Onwards(o, before, done, deeds, [Ends(t.run.job, if recheck.reconnect then AwaitingReconnect else Failed)], ItemScript(t, end));
      } else {
        assert deeds == before + [Deed(CheckCancel, Nothing), Deed(Observe(StateSame), Nothing)];
        o, more, end, e, n, act := ReserveItem(t, before);
      }
    }

    method ReserveItem(t: Turn, ghost before: seq<Deed>)
      returns (o: Ending, more: bool, ghost end: ItemEnd, ghost e: EffectId, ghost n: nat, ghost act: Effecting)
      requires Valid() && s.worker == AtItem(t, Unchanged)
      requires deeds == before + [Deed(CheckCancel, Nothing), Deed(Observe(StateSame), Nothing)]
      modifies this
      ensures Valid() && ItemAlong(o, before, deeds, t, end, e, n, act)
      ensures o.Went? ==> (more <==> end.Changed? || (end.Acts? && act.SentAt?))
      ensures if o.Went? && more then s.worker == Looping(t.run, t.rows, t.rest) else Left(o, t.run.job)
    {
      hide Reachable, Decide, WorkerNext, WritesAllowed, Along, EffectAlong;
      ghost var done := [Deed(CheckCancel, Nothing), Deed(Observe(StateSame), Nothing)];
      more, end, e, n, act := false, Exhausted(false), 0, 0, Unstarted;
      o := Ready();
      if !o.Went? { Cut(o, before, done, deeds, ItemScript(t, end)); return; }
      var available: bool := *;
      ReserveGoes(s, t, available);
      var effect := s.nextEffect;
      var reserved := available && WritesAllowed(s, t.run.did);
      Go(Reserve(available));
      if !reserved {
        end := Exhausted(available);
        assert deeds == before + (done + [Deed(Reserve(available), Nothing)]);
        o := FinishRun(t.run.job);
        Onwards(o, before, done + [Deed(Reserve(available), Nothing)], deeds, [Ends(t.run.job, Paused)], ItemScript(t, end));
        return;
      }
      end, e := Acts, effect;
      assert deeds == before + ItemScript(t, Acts);
      o, more, n, act := PerformEffect(t, effect);
    }

    /** The item loop. */
    method PerformItems(run: Run) returns (o: Ending, ghost marks: seq<seq<Deed>>)
      requires Valid() && s.worker.Looping? && s.worker.run == run
      modifies this
      ensures Valid() && Left(o, run.job)
      ensures Visited(marks, run, old(s.worker.rows), old(s.worker.rest)) && marks[0] == old(deeds)
      ensures Concluded(o, marks[|marks| - 1], deeds, run, old(s.worker.rows), old(s.worker.rest), |marks| - 1)
    {
      hide Reachable, Decide, WorkerNext, Along, ItemAlong, TookItem, TookNext;
      var rows, items, k := s.worker.rows, s.worker.rest, 0;
      marks := [deeds];
      assert items[0..] == items;
      while k < |items|
        invariant 0 <= k <= |items| && Valid() && s.worker == Looping(run, rows, items[k..])
        invariant |marks| == k + 1 && Visited(marks, run, rows, items) && marks[0] == old(deeds) && marks[k] == deeds
      {
        ghost var before := deeds;
        var more;
        o, more := VisitNext(run, rows, items, k);
        if !o.Went? || !more { return; }
        VisitedOneMore(marks, deeds, run, rows, items);
        marks, k := marks + [deeds], k + 1;
      }
      o := EndLoop(run, rows, items);
    }

    /** Take up the next item, unless the account is being deleted. */
    method VisitNext(run: Run, rows: map<Did, Row>, items: seq<ItemId>, k: nat) returns (o: Ending, more: bool)
      requires k < |items| && Valid() && s.worker == Looping(run, rows, items[k..])
      modifies this
      ensures Valid() && if o.Went? && more then s.worker == Looping(run, rows, items[k + 1..]) else Left(o, run.job)
      ensures if o.Went? && more then TookNext(Went, old(deeds), deeds, run, rows, items, k)
              else Concluded(o, old(deeds), deeds, run, rows, items, k)
    {
      hide Reachable, Decide, WorkerNext, Along, ItemAlong;
      ghost var before := deeds;
      var rest := items[k..];
      more := false;
      o := Ready();
      if !o.Went? { CutBeforeNext(o, before, deeds, run, rows, items, k); return; }
      NextItemGoes(s, run, rows, rest);
      var deleting := run.did in s.deletions;
      RestIsStored(s, run, rows, rest);
      var row := s.items[rest[0]].row;
      assert rest[0] == items[k] && rest[1..] == items[k + 1..];
      var t := TurnFor(run, rows, items, k, row);
      Go(NextItem);
      assert deeds == before + [NEXT];
      if deleting {
        ghost var verdict;
        o, verdict := BreakRun(run);
        ghost var skipping := [Skips(run.job), COUNTS, Ends(run.job, verdict)];
        Onwards(o, before, [NEXT], deeds, skipping, [NEXT, Skips(run.job), COUNTS, Ends(run.job, verdict)]);
        return;
      }
      ghost var end, e, n, act;
      o, more, end, e, n, act := PerformItem(t);
      assert TookItem(o, before + [NEXT], deeds, TurnFor(run, rows, items, k, row));
    }

    method EndLoop(run: Run, rows: map<Did, Row>, items: seq<ItemId>) returns (o: Ending)
      requires Valid() && s.worker == Looping(run, rows, [])
      modifies this
      ensures Valid() && Left(o, run.job) && Concluded(o, old(deeds), deeds, run, rows, items, |items|)
    {
      hide Reachable, Decide, WorkerNext, TallyStatus, Along;
      ghost var before := deeds;
      o := Ready();
      if !o.Went? { Cut(o, before, [], deeds, [NEXT, COUNTS, Ends(run.job, Failed)]); return; }
      NextItemGoes(s, run, rows, []);
      Go(NextItem);
      assert deeds == before + [NEXT];
      ghost var tallied;
      o, tallied := TallyRun(run);
      ghost var end := Ends(run.job, TallyStatus(tallied, run.job));
      Onwards(o, before, [NEXT], deeds, [COUNTS, end], [NEXT, COUNTS, end]);
    }

    method Run(j: JobId) returns (o: Ending)
      requires Valid() && s.worker == Claimed(j)
      modifies this
      ensures Valid() && Left(o, j)
    {
      hide Reachable, Decide, WorkerNext;
      :- Ready();
      LoadGoes(s, j);
      var known := j in s.jobs;
      Go(Load);
      if !known { return Went; }
      var run := s.worker.run;
      var current;
      ghost var end;
      o, end, current := CheckRun(run);
      if !o.Went? || !current { return; }
      var answer;
      o, answer := AcquireRun(run);
      if !o.Went? || !answer.Receipt? { return; }
      ghost var marks;
      o, marks := PerformItems(run);
    }

    /** One turn of the service loop; an escaped error marks the job as failed. */
    method RunNext() returns (worked: bool, alive: bool)
      requires Valid() && s.worker == Idle
      modifies this
      ensures Valid() && s.worker == (if alive then Idle else Down)
    {
      hide Reachable, Decide, WorkerNext;
      var o := Others();
      if o.Died? { return false, false; }
      var job := Claim();
      if job.None? { return false, true; }
      o := Run(job.value);
      if o.Threw? {
        o := Others();
        if o.Died? { return true, false; }
        EndGoes(s);
        Go(FinishJob);
        return true, true;
      }
      return true, o.Went?;
    }

    /** Restart: whatever was being attempted is uncertain, and interrupted jobs resume only without doubt. */
    method Recover()
      requires Valid() && s.worker == Down
      modifies this
      ensures Valid() && s == RecoverTx(old(s)) && s.worker == Idle
    {
      hide Reachable;
      ReachNext(s, Step.Recover);
      s := RecoverTx(s);
    }
  }
}
