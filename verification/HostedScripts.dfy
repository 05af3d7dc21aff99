/** What the worker does and in which order: each operation's script, cut short anywhere by a death or an error. */
module HostedScripts {
  import opened Wrappers
  import opened Policy
  import opened Planning
  import opened Ledger
  import opened Hosted

  /** How an operation ends: it went through, it raised, or the process died. */
  datatype Ending = Went | Threw | Died {
    predicate IsFailure() {
      !Went?
    }

    function PropagateFailure(): Ending {
      this
    }
  }

  // ----- what the worker does, in order -----

  /** A step the worker took and the one durable write or remote call it made. */
  datatype Deed = Deed(step: WorkerStep, change: Change)

  const RAISED := Deed(Throw, Nothing)

  /** A journal call that raises out of the whole run. */
  predicate Escapes(d: Deed) {
    d.step.Finish? && d.step.call.Raised?
  }

  /** The deeds from `before` to `after` are the script; cut short at any place by a death, or by an error where
      the operation raises. */
  predicate Along(o: Ending, before: seq<Deed>, after: seq<Deed>, script: seq<Deed>) {
    match o
    case Went => after == before + script
    case Died => before <= after <= before + script
    case Threw =>
      after != [] &&
      if after[|after| - 1] == RAISED then before <= after[..|after| - 1] <= before + script
      else after == before + script && Escapes(after[|after| - 1])
  }

  /** A step before which nothing else is to be done may be missed by a death or an error. */
  lemma Cut(o: Ending, before: seq<Deed>, done: seq<Deed>, after: seq<Deed>, script: seq<Deed>)
    requires !o.Went? && done <= script && after == before + done + if o.Threw? then [RAISED] else []
    ensures Along(o, before, after, script)
  {
    if o.Threw? { assert after[..|after| - 1] == before + done; }
    assert before + script == before + done + script[|done|..];
  }

  lemma Through(before: seq<Deed>, after: seq<Deed>, script: seq<Deed>)
    requires after == before + script
    ensures Along(Went, before, after, script)
  {
  }

  lemma Escaped(before: seq<Deed>, after: seq<Deed>, script: seq<Deed>)
    requires after == before + script && script != [] && Escapes(script[|script| - 1])
    ensures Along(Threw, before, after, script)
  {
  }

  lemma Onwards(o: Ending, before: seq<Deed>, done: seq<Deed>, after: seq<Deed>, rest: seq<Deed>, script: seq<Deed>)
    requires Along(o, before + done, after, rest) && script == done + rest
    ensures Along(o, before, after, script)
  {
    assert before + script == before + done + rest;
    assert before <= before + done;
  }

  function Ends(j: JobId, status: JobStatus): Deed {
    Deed(FinishJob, JobTo(j, status))
  }

  function Skips(j: JobId): Deed {
    Deed(Skip, SkipPending(j))
  }

  const COUNTS := Deed(Tally, Nothing)

  /** The five ends of the checks; only the last goes on. */
  datatype CheckEnd = BeingDeleted | Expired | NotConnected | PolicyChanged | Passed

  function CheckScript(j: JobId, end: CheckEnd): seq<Deed> {
    var deletion, account, policy := Deed(CheckDeletion, Nothing), Deed(CheckAccount(false), Nothing), Deed(CheckPolicy, Nothing);
    match end
    case BeingDeleted => [deletion, Skips(j), Ends(j, Cancelled)]
    case Expired => [deletion, Deed(CheckAccount(true), Nothing), Skips(j), Ends(j, NeedsReview)]
    case NotConnected => [deletion, account, Ends(j, Disconnected)]
    case PolicyChanged => [deletion, account, policy, Skips(j), Ends(j, CompletedWithSkips)]
    case Passed => [deletion, account, policy]
  }

  function AcquireScript(j: JobId, answer: Acquired): seq<Deed> {
    match answer
    case AcquireRateLimited => [Deed(Acquire(answer), JobTo(j, Queued))]
    case AcquireFailed(reconnect) => [Deed(Acquire(answer), Nothing), Ends(j, if reconnect then AwaitingReconnect else Failed)]
    case Receipt(_, _) => [Deed(Acquire(answer), Nothing)]
  }

  function Journals(t: Turn, event: Event, call: Call, demotes: Option<ItemId>): Change {
    JournalTo(t.run.did, event, Commits(call), demotes)
  }

  /** The handler: close the attempt as unresolved, the item as uncertain, the reservation as uncertain. It never
      sends. If closing the attempt raises, that is all. */
  function HandlerScript(t: Turn, e: EffectId, n: nat, call: Call, demotes: Option<ItemId>): seq<Deed> {
    var closing := Deed(WorkerStep.Finish(call), Journals(t, Closing(t, n, false), call, demotes));
    if call.Raised? then [closing]
    else [closing, Deed(Record, ItemTo(t.item, ItemUncertain, Some(n))), Deed(CloseEffect, EffectTo(e, EffectUncertain))]
  }

  /** A refused gate: close the attempt unsent, give the item back, refuse the reservation, pause the job. */
  function RefuseScript(t: Turn, e: EffectId, n: nat, call: Call): seq<Deed> {
    var closing := Deed(WorkerStep.Finish(call), Journals(t, Closing(t, n, false), call, None));
    if call.Raised? then [closing]
    else
      [closing, Deed(Record, ItemTo(t.item, ItemPending, Some(n))), Deed(CloseEffect, EffectTo(e, EffectRefused)),
       Ends(t.run.job, Paused)]
  }

  function Sends(t: Turn, e: EffectId, n: nat, raises: bool): Deed {
    Deed(Send(raises), Remotely(Write(t.item, t.run.job, t.run.did, t.row, KindOf(t.run.kind), e, n)))
  }

  /** Send, read back, close the journal, record, close the reservation. */
  function SendScript(t: Turn, e: EffectId, n: nat, answers: seq<Option<Remote>>, call: Call): seq<Deed> {
    var ok := Confirmation(KindOf(t.run.kind), answers);
    [Sends(t, e, n, false), Deed(Confirm(answers), if ok then Observed(t.item) else Nothing),
     Deed(WorkerStep.Finish(call), Journals(t, Closing(t, n, ok), call, None)),
     Deed(Record, ItemTo(t.item, if ok then ItemConfirmed else ItemUncertain, Some(n))),
     Deed(CloseEffect, EffectTo(e, if ok then EffectConfirmed else EffectUncertain))]
  }

  /** How the handled block can fail: the request raises, the close of the journal raises, or a step after it does. */
  datatype Failure = RequestRaised | JournalRaised(committed: bool) | RecordRaised | ReservationRaised

  function FailedScript(t: Turn, e: EffectId, n: nat, answers: seq<Option<Remote>>, f: Failure): seq<Deed> {
    match f
    case RequestRaised => [Sends(t, e, n, true)]
    case JournalRaised(committed) => SendScript(t, e, n, answers, Raised(committed))[..3]
    case RecordRaised => SendScript(t, e, n, answers, Returned)[..3] + [RAISED]
    case ReservationRaised => SendScript(t, e, n, answers, Returned)[..4] + [RAISED]
  }

  /** The request goes out once; the block goes through, or its failure goes to the handler. */
  datatype Sending = Smooth(answers: seq<Option<Remote>>) | Handled(answers: seq<Option<Remote>>, failure: Failure, call: Call, demotes: Option<ItemId>)

  predicate SendsAlong(o: Ending, before: seq<Deed>, after: seq<Deed>, t: Turn, e: EffectId, n: nat, how: Sending) {
    match how
    case Smooth(answers) => !o.Threw? && Along(o, before, after, SendScript(t, e, n, answers, Returned))
    case Handled(answers, f, call, demotes) =>
      Along(o, before + FailedScript(t, e, n, answers, f), after, HandlerScript(t, e, n, call, demotes))
  }

  /** Journal, mark, look at the gates. */
  function StartScript(t: Turn, n: nat, readable: bool): seq<Deed> {
    [Deed(Begin(Returned), Journals(t, Begun(t.row.subject, KindOf(t.run.kind), n), Returned, None)),
     Deed(Mark, ItemTo(t.item, Attempting, Some(n))), Deed(CheckGate(readable), Nothing)]
  }

  /** An unjournalled effect gives its reservation back and fails the job. */
  function UnjournalledScript(t: Turn, e: EffectId, n: nat, call: Call): seq<Deed> {
    [Deed(Begin(call), Journals(t, Begun(t.row.subject, KindOf(t.run.kind), n), call, None)),
     Deed(CloseEffect, EffectTo(e, EffectRefused)), Ends(t.run.job, Failed)]
  }

  datatype Effecting = Unjournalled(committed: bool) | Unstarted | RefusedAt(readable: bool, call: Call) | SentAt(how: Sending)

  predicate EffectAlong(o: Ending, before: seq<Deed>, after: seq<Deed>, t: Turn, e: EffectId, n: nat, act: Effecting) {
    match act
    case Unjournalled(committed) => Along(o, before, after, UnjournalledScript(t, e, n, Raised(committed)))
    case Unstarted => !o.Went? && Along(o, before, after, StartScript(t, n, true))
    case RefusedAt(readable, call) => Along(o, before + StartScript(t, n, readable), after, RefuseScript(t, e, n, call))
    case SentAt(how) => SendsAlong(o, before + StartScript(t, n, true), after, t, e, n, how)
  }

  /** Where the checks of an item end; only the last goes on to the effect. */
  datatype ItemEnd =
    | Vanished | Cancelling(verdict: JobStatus) | Changed(recheck: Recheck) | Limited | Unread(reconnect: bool)
    | Exhausted(available: bool) | Acts

  /** Cancellation, applicability and unchanged state, reservation. */
  function ItemScript(t: Turn, end: ItemEnd): seq<Deed> {
    var cancel, same := Deed(CheckCancel, Nothing), Deed(Observe(StateSame), Nothing);
    match end
    case Vanished => [cancel, Ends(t.run.job, Failed)]
    case Cancelling(verdict) => [cancel, Skips(t.run.job), COUNTS, Ends(t.run.job, verdict)]
    case Changed(recheck) => [cancel, Deed(Observe(recheck), ItemTo(t.item, SkippedChanged, None))]
    case Limited => [cancel, Deed(Observe(RateLimited), JobTo(t.run.job, Queued))]
    case Unread(reconnect) =>
      [cancel, Deed(Observe(ReadFailed(reconnect)), Nothing), Ends(t.run.job, if reconnect then AwaitingReconnect else Failed)]
    case Exhausted(available) => [cancel, same, Deed(Reserve(available), Nothing), Ends(t.run.job, Paused)]
    case Acts => [cancel, same, Deed(Reserve(true), ReserveEffect(t.run.did))]
  }

  predicate ItemAlong(o: Ending, before: seq<Deed>, after: seq<Deed>, t: Turn, end: ItemEnd, e: EffectId, n: nat, act: Effecting) {
    if end.Acts? then EffectAlong(o, before + ItemScript(t, end), after, t, e, n, act) else Along(o, before, after, ItemScript(t, end))
  }

  ghost predicate TookItem(o: Ending, before: seq<Deed>, after: seq<Deed>, t: Turn) {
    exists end: ItemEnd, e: EffectId, n: nat, act: Effecting :: ItemAlong(o, before, after, t, end, e, n, act)
  }

  const NEXT := Deed(NextItem, Nothing)

  function TurnFor(run: Run, rows: map<Did, Row>, items: seq<ItemId>, k: nat, row: Row): Turn
    requires k < |items|
  {
    Turn(run, rows, items[k], row, items[k + 1..])
  }

  /** The k-th item was taken up. */
  ghost predicate TookNext(o: Ending, before: seq<Deed>, after: seq<Deed>, run: Run, rows: map<Did, Row>, items: seq<ItemId>, k: nat)
    requires k < |items|
  {
    exists row :: TookItem(o, before + [NEXT], after, TurnFor(run, rows, items, k, row))
  }

  ghost predicate Took(marks: seq<seq<Deed>>, run: Run, rows: map<Did, Row>, items: seq<ItemId>, i: nat)
    requires i < |items| && i + 1 < |marks|
  {
    TookNext(Went, marks[i], marks[i + 1], run, rows, items, i)
  }

  /** The first items were visited, each once and in order; the marks are what had been done after each. */
  ghost predicate Visited(marks: seq<seq<Deed>>, run: Run, rows: map<Did, Row>, items: seq<ItemId>) {
    0 < |marks| <= |items| + 1 && forall i {:trigger Took(marks, run, rows, items, i)} :: 0 <= i < |marks| - 1 ==> Took(marks, run, rows, items, i)
  }

  /** After the items comes the tally; a deletion skips what is pending before it; any other end is an item's. */
  ghost predicate Concluded(o: Ending, before: seq<Deed>, after: seq<Deed>, run: Run, rows: map<Did, Row>, items: seq<ItemId>, k: nat)
    requires k <= |items|
  {
    (k == |items| && exists verdict :: Along(o, before, after, [NEXT, COUNTS, Ends(run.job, verdict)])) ||
    (k < |items| && exists verdict :: Along(o, before, after, [NEXT, Skips(run.job), COUNTS, Ends(run.job, verdict)])) ||
    (k < |items| && TookNext(o, before, after, run, rows, items, k))
  }

  lemma VisitedOneMore(marks: seq<seq<Deed>>, after: seq<Deed>, run: Run, rows: map<Did, Row>, items: seq<ItemId>)
    requires Visited(marks, run, rows, items) && |marks| <= |items|
    requires TookNext(Went, marks[|marks| - 1], after, run, rows, items, |marks| - 1)
    ensures Visited(marks + [after], run, rows, items)
  {
    hide TookNext;
    var all := marks + [after];
    forall i | 0 <= i < |all| - 1 ensures Took(all, run, rows, items, i) {
      if i < |marks| - 1 { assert Took(marks, run, rows, items, i); }
    }
  }

  lemma CutBeforeNext(o: Ending, before: seq<Deed>, after: seq<Deed>, run: Run, rows: map<Did, Row>, items: seq<ItemId>, k: nat)
    requires k < |items| && !o.Went? && after == before + if o.Threw? then [RAISED] else []
    ensures Concluded(o, before, after, run, rows, items, k)
  {
    assert before + [] == before;
    Cut(o, before, [], after, [NEXT, Skips(run.job), COUNTS, Ends(run.job, Failed)]);
    hide Along, TookNext;
  }
}
