/** Each step of the worker at the phase that takes it, one at a time. */
module HostedSteps {
  import opened Wrappers
  import opened Policy
  import opened Planning
  import opened Hosted

  lemma ClaimGoes(s: State, j: JobId)
    requires s.worker == Idle && s.writesEnabled && j in s.jobs && s.jobs[j].status == Queued
    ensures Decide(s, Claim(j)) == Act(JobTo(j, Running), Claimed(j))
  {
  }

  lemma LoadGoes(s: State, j: JobId)
    requires s.worker == Claimed(j)
    ensures Decide(s, Load) ==
            Act(Nothing, if j in s.jobs then
                           Entering(Run(j, s.jobs[j].did, s.jobs[j].policy, s.jobs[j].revision, s.jobs[j].kind), Unchecked)
                         else Idle)
  {
  }

  lemma CheckDeletionGoes(s: State, run: Run)
    requires s.worker == Entering(run, Unchecked)
    ensures Decide(s, CheckDeletion) ==
            Act(Nothing, if run.did in s.deletions then Exiting(run.job, Cancelled) else Entering(run, NotDeleting))
  {
  }

  lemma CheckAccountGoes(s: State, run: Run, expired: bool)
    requires s.worker == Entering(run, NotDeleting)
    ensures Decide(s, CheckAccount(expired)) ==
            Act(Nothing, if expired then Exiting(run.job, NeedsReview)
                         else if run.did !in s.users || !s.users[run.did] then Finishing(run.job, Disconnected)
                         else Entering(run, Connected))
  {
  }

  lemma CheckPolicyGoes(s: State, run: Run)
    requires s.worker == Entering(run, Connected)
    ensures Decide(s, CheckPolicy) ==
            Act(Nothing, if run.policy !in s.policies || s.policies[run.policy] != PolicyRow(run.did, run.revision)
                         then Exiting(run.job, CompletedWithSkips) else Entering(run, Current))
  {
  }

  lemma AcquireGoes(s: State, run: Run, a: Acquired)
    requires s.worker == Entering(run, Current)
    requires a.Receipt? ==> Planned(a.rows, JournalOf(s, run.did)) && PendingItems(s, run.job, a.pending)
    ensures Decide(s, Acquire(a)) ==
            match a
            case AcquireRateLimited => Act(JobTo(run.job, Queued), Idle)
            case AcquireFailed(reconnect) => Act(Nothing, Finishing(run.job, if reconnect then AwaitingReconnect else Failed))
            case Receipt(rows, pending) => Act(Nothing, Looping(run, rows, pending))
  {
  }

  lemma NextItemGoes(s: State, run: Run, rows: map<Did, Row>, rest: seq<ItemId>)
    requires s.worker == Looping(run, rows, rest)
    ensures Decide(s, NextItem) == NextItemAct(s, run, rows, rest)
  {
  }

  lemma CheckCancelGoes(s: State, t: Turn)
    requires s.worker == AtItem(t, Undeleted)
    ensures Decide(s, CheckCancel) ==
            Act(Nothing, if t.run.job !in s.jobs then Finishing(t.run.job, Failed)
                         else if s.jobs[t.run.job].cancel then Breaking(t.run) else AtItem(t, Chosen))
  {
  }

  lemma ObserveGoes(s: State, t: Turn, recheck: Recheck)
    requires s.worker == AtItem(t, Chosen)
    ensures Decide(s, Observe(recheck)) ==
            if !Applies(t.run, t.rows, t.row) || recheck.StateChanged? then
              Act(ItemTo(t.item, SkippedChanged, None), Looping(t.run, t.rows, t.rest))
            else if recheck.RateLimited? then Act(JobTo(t.run.job, Queued), Idle)
            else Act(Nothing, if recheck.ReadFailed? then Finishing(t.run.job, if recheck.reconnect then AwaitingReconnect else Failed)
                              else AtItem(t, Unchanged))
  {
    hide Applies;
  }

  lemma ReserveGoes(s: State, t: Turn, available: bool)
    requires s.worker == AtItem(t, Unchanged)
    ensures Decide(s, Reserve(available)) ==
            if available && WritesAllowed(s, t.run.did) then Act(ReserveEffect(t.run.did), Reserved(t, s.nextEffect))
            else Act(Nothing, Finishing(t.run.job, Paused))
  {
    hide WritesAllowed;
  }

  lemma BeginGoes(s: State, t: Turn, e: EffectId, call: Call)
    requires s.worker == Reserved(t, e)
    ensures Decide(s, Begin(call)) ==
            Act(JournalTo(t.run.did, Opening(s, t), Commits(call), None),
                if call.Returned? then InEffect(t, e, |JournalOf(s, t.run.did).attempts|, Journalled) else BeginFailed(t, e))
  {
    hide JournalOf;
  }

  lemma BeginFailedGoes(s: State, t: Turn, e: EffectId)
    requires s.worker == BeginFailed(t, e)
    ensures Decide(s, CloseEffect) == Act(EffectTo(e, EffectRefused), Finishing(t.run.job, Failed))
  {
  }

  lemma MarkGoes(s: State, t: Turn, e: EffectId, n: nat)
    requires s.worker == InEffect(t, e, n, Journalled)
    ensures Decide(s, Mark) == Act(ItemTo(t.item, Attempting, Some(n)), InEffect(t, e, n, Marked))
  {
  }

  lemma CheckGateGoes(s: State, t: Turn, e: EffectId, n: nat, readable: bool)
    requires s.worker == InEffect(t, e, n, Marked)
    ensures Decide(s, CheckGate(readable)) ==
            Act(Nothing, InEffect(t, e, n, if readable && WritesAllowed(s, t.run.did) then Gated else Refused))
  {
    hide WritesAllowed;
  }

  lemma SendGoes(s: State, t: Turn, e: EffectId, n: nat, raises: bool)
    requires s.worker == InEffect(t, e, n, Gated)
    ensures Decide(s, Send(raises)) ==
            Act(Remotely(Write(t.item, t.run.job, t.run.did, t.row, KindOf(t.run.kind), e, n)),
                InEffect(t, e, n, if raises then Caught else Requested))
  {
  }

  lemma ConfirmGoes(s: State, t: Turn, e: EffectId, n: nat, answers: seq<Option<Remote>>)
    requires s.worker == InEffect(t, e, n, Requested)
    ensures var ok := Confirmation(KindOf(t.run.kind), answers);
            Decide(s, Confirm(answers)) == Act(if ok then Observed(t.item) else Nothing, InEffect(t, e, n, ReadBack(ok)))
  {
    hide Confirmation;
  }

  lemma FinishGoes(s: State, t: Turn, e: EffectId, n: nat, stage: Stage, call: Call)
    requires s.worker == InEffect(t, e, n, stage) && (stage.ReadBack? || stage.Caught? || stage.Refused?)
    ensures Decide(s, WorkerStep.Finish(call)) ==
            Act(JournalTo(t.run.did, Closing(t, n, stage == ReadBack(true)), Commits(call),
                          if stage.Caught? && Overwrites(s, t) then Some(t.item) else None),
                match stage
                case ReadBack(ok) => InEffect(t, e, n, if call.Returned? then Closed(ok) else Caught)
                case Caught => if call.Returned? then InEffect(t, e, n, CaughtClosed) else Finishing(t.run.job, Failed)
                case _ => if call.Returned? then InEffect(t, e, n, RefusedClosed) else Finishing(t.run.job, Failed))
  {
  }

  lemma RecordGoes(s: State, t: Turn, e: EffectId, n: nat, stage: Stage)
    requires s.worker == InEffect(t, e, n, stage) && (stage.Closed? || stage.CaughtClosed? || stage.RefusedClosed?)
    ensures Decide(s, Record) ==
            match stage
            case Closed(ok) => Act(ItemTo(t.item, if ok then ItemConfirmed else ItemUncertain, Some(n)), InEffect(t, e, n, Recorded(ok)))
            case CaughtClosed => Act(ItemTo(t.item, ItemUncertain, Some(n)), InEffect(t, e, n, CaughtRecorded))
            case _ => Act(ItemTo(t.item, ItemPending, Some(n)), InEffect(t, e, n, RefusedReset))
  {
  }

  lemma CloseEffectGoes(s: State, t: Turn, e: EffectId, n: nat, stage: Stage)
    requires s.worker == InEffect(t, e, n, stage) && (stage.Recorded? || stage.CaughtRecorded? || stage.RefusedReset?)
    ensures Decide(s, CloseEffect) ==
            match stage
            case Recorded(ok) => Act(EffectTo(e, if ok then EffectConfirmed else EffectUncertain), Looping(t.run, t.rows, t.rest))
            case CaughtRecorded => Act(EffectTo(e, EffectUncertain), Looping(t.run, t.rows, t.rest))
            case _ => Act(EffectTo(e, EffectRefused), Finishing(t.run.job, Paused))
  {
  }

  lemma HandledThrowGoes(s: State, t: Turn, e: EffectId, n: nat, stage: Stage)
    requires s.worker == InEffect(t, e, n, stage) && (stage.Closed? || stage.Recorded?)
    ensures Decide(s, Throw) == Act(Nothing, InEffect(t, e, n, Caught))
  {
  }

  lemma EndGoes(s: State)
    ensures s.worker.Breaking? ==> Decide(s, Skip) == Act(SkipPending(s.worker.run.job), Tallying(s.worker.run))
    ensures s.worker.Tallying? ==>
              Decide(s, Tally) == Act(Nothing, Finishing(s.worker.run.job, TallyStatus(s, s.worker.run.job)))
    ensures s.worker.Exiting? ==> Decide(s, Skip) == Act(SkipPending(s.worker.job), Finishing(s.worker.job, s.worker.status))
    ensures s.worker.Finishing? ==> Decide(s, FinishJob) == Act(JobTo(s.worker.job, s.worker.status), Idle)
  {
    hide TallyStatus;
  }

  lemma ThrowGoes(s: State)
    requires Throwing(s.worker).Some?
    ensures Decide(s, Throw) == Act(Nothing, Finishing(Throwing(s.worker).value, Failed))
  {
    hide Throwing;
  }
}
