/** The hosted service as a step machine: one action worker that may die between any two durable
    writes or remote calls, and the web process acting in between.
    The application tables and the accounts' engine stores are separate databases. */
module Hosted {
  import opened Wrappers
  import opened Policy
  import opened Planning
  import opened Ledger

  type JobId = nat
  type ItemId = nat
  type PolicyId = nat
  type EffectId = nat

  datatype JobKind = ApplyMutes | ApplyFollowed | ReleaseMutes

  datatype JobStatus =
    | Queued | Running | AwaitingReconnect | Paused | Cancelled | Disconnected | Failed | NeedsReview
    | CompletedWithSkips | Completed

  datatype ItemStatus = ItemPending | Attempting | ItemConfirmed | ItemUncertain | SkippedChanged | SkippedCancelled

  datatype Job = Job(did: Did, policy: PolicyId, revision: nat, kind: JobKind, status: JobStatus, cancel: bool)

  /** An approved action; the row is its fingerprint. */
  datatype Item = Item(job: JobId, row: Row, status: ItemStatus, attempt: Option<nat>)

  datatype PolicyRow = PolicyRow(did: Did, revision: nat)

  datatype EffectStatus = EffectAttempting | EffectConfirmed | EffectUncertain | EffectRefused

  datatype EffectRow = EffectRow(did: Did, status: EffectStatus)

  datatype Approval = Approval(did: Did, kind: JobKind, rows: seq<Row>)

  /** A remote request that left the worker. */
  datatype Write = Write(item: ItemId, job: JobId, did: Did, row: Row, kind: Kind, effect: EffectId, attempt: nat)

  datatype Entry =
    | Wrote(write: Write)
    | Matched(item: ItemId)
    | Demoted(item: ItemId)
    | DeletionRequested(did: Did)
    | Erased(did: Did, before: JobId)

  datatype Run = Run(job: JobId, did: Did, policy: PolicyId, revision: nat, kind: JobKind)

  /** One turn of the item loop: the preview's rows, the item at hand and the items still to come. */
  datatype Turn = Turn(run: Run, rows: map<Did, Row>, item: ItemId, row: Row, rest: seq<ItemId>)

  /** What a claimed run has checked before it previews the policy again. */
  datatype Gate = Unchecked | NotDeleting | Connected | Current

  /** What has been checked for the item at hand. */
  datatype Point = Undeleted | Chosen | Unchanged

  /** What was last done about a journalled effect. */
  datatype Stage =
    | Journalled | Marked | Gated
    | Requested | ReadBack(ok: bool) | Closed(ok: bool) | Recorded(ok: bool)
    | Caught | CaughtClosed | CaughtRecorded
    | Refused | RefusedClosed | RefusedReset

  /** Where the worker stands, named by what was last done. */
  datatype Phase =
    | Down
    | Idle
    | Claimed(job: JobId)
    | Entering(run: Run, gate: Gate)
    | Looping(run: Run, rows: map<Did, Row>, rest: seq<ItemId>)
    | AtItem(turn: Turn, point: Point)
    | Reserved(turn: Turn, effect: EffectId)
    | BeginFailed(turn: Turn, effect: EffectId)
    | InEffect(turn: Turn, effect: EffectId, attempt: nat, stage: Stage)
    | Breaking(run: Run)
    | Tallying(run: Run)
    | Exiting(job: JobId, status: JobStatus)
    | Finishing(job: JobId, status: JobStatus)

  datatype State = State(
    users: map<Did, bool>, policies: map<PolicyId, PolicyRow>, jobs: map<JobId, Job>, items: map<ItemId, Item>,
    effects: map<EffectId, EffectRow>, deletions: set<Did>, standing: set<Did>, writesEnabled: bool, accountWrites: set<Did>,
    engines: map<Did, seq<Event>>, approvals: map<JobId, Approval>,
    nextPolicy: PolicyId, nextJob: JobId, nextItem: ItemId, nextEffect: EffectId,
    worker: Phase, log: seq<Entry>)

  /** How a call ends: normally, or by raising, in which case a remote commit may or may not have happened. */
  datatype Call = Returned | Raised(committed: bool)

  datatype Recheck = RateLimited | ReadFailed(reconnect: bool) | StateChanged | StateSame

  datatype Acquired = AcquireRateLimited | AcquireFailed(reconnect: bool) | Receipt(rows: map<Did, Row>, pending: seq<ItemId>)

  datatype WorkerStep =
    | Claim(job: JobId)
    | Load
    | CheckDeletion
    | CheckAccount(expired: bool)
    | CheckPolicy
    | Acquire(acquired: Acquired)
    | NextItem
    | CheckCancel
    | Observe(recheck: Recheck)
    | Reserve(available: bool)
    | Begin(call: Call)
    | Mark
    | CheckGate(readable: bool)
    | Send(raises: bool)
    | Confirm(answers: seq<Option<Remote>>)
    | Finish(call: Call)
    | Record
    | CloseEffect
    | Skip
    | Tally
    | FinishJob
    | Throw

  datatype WebStep =
    | SignIn(did: Did)
    | Disconnect(did: Did)
    | CreatePolicy(did: Did)
    | EditPolicy(policy: PolicyId)
    | Approve(did: Did, policy: PolicyId, kind: JobKind, rows: seq<Row>)
    | Cancel(job: JobId)
    | ResumeJob(job: JobId)
    | SetWrites(enabled: bool)
    | SetAccountWrites(did: Did, enabled: bool)
    | RequestDeletion(did: Did)
    | CheckStanding(did: Did)
    | Purge(did: Did, engineRemoved: bool)

  datatype Step = Worker(step: WorkerStep) | Web(web: WebStep) | Crash | Recover

  // ----- small updates -----

  function WithJob(jobs: map<JobId, Job>, j: JobId, status: JobStatus): map<JobId, Job> {
    if j in jobs then jobs[j := jobs[j].(status := status)] else jobs
  }

  function WithItem(items: map<ItemId, Item>, i: ItemId, status: ItemStatus, attempt: Option<nat>): map<ItemId, Item> {
    if i in items then items[i := items[i].(status := status, attempt := attempt)] else items
  }

  function WithEffect(effects: map<EffectId, EffectRow>, e: EffectId, status: EffectStatus): map<EffectId, EffectRow> {
    if e in effects then effects[e := effects[e].(status := status)] else effects
  }

  function SkipItems(items: map<ItemId, Item>, j: JobId): map<ItemId, Item> {
    map i | i in items ::
      if items[i].job == j && items[i].status == ItemPending then items[i].(status := SkippedCancelled) else items[i]
  }

  function History(s: State, did: Did): seq<Event> {
    if did in s.engines then s.engines[did] else []
  }

  function JournalOf(s: State, did: Did): Ledger.Journal {
    Replay(History(s, did))
  }

  function KindOf(kind: JobKind): Kind {
    if kind == ReleaseMutes then Unmute else Mute
  }

  function Expected(kind: JobKind): Action {
    match kind case ApplyMutes => MuteAction case ApplyFollowed => FollowReviewCandidate case ReleaseMutes => ReleaseCandidate
  }

  /** The item's row is still what the current preview plans. */
  predicate Applies(run: Run, rows: map<Did, Row>, row: Row) {
    row.subject in rows && rows[row.subject] == row && row.action == Expected(run.kind)
  }

  /** A preview's rows come from planning against the current ledger. */
  predicate Planned(rows: map<Did, Row>, j: Ledger.Journal) {
    forall d :: d in rows ==>
      rows[d].subject == d &&
      (rows[d].action == MuteAction || rows[d].action == FollowReviewCandidate ==> Permits(Status(j, d), true)) &&
      (rows[d].action == ReleaseCandidate ==> Permits(Status(j, d), false))
  }

  /** The pending items of a job, each once, in the order of the query. */
  predicate PendingItems(s: State, j: JobId, pending: seq<ItemId>) {
    (forall k :: 0 <= k < |pending| ==> pending[k] in s.items && s.items[pending[k]].job == j && s.items[pending[k]].status == ItemPending) &&
    (forall k, l :: 0 <= k < l < |pending| ==> pending[k] != pending[l])
  }

  predicate Confirms(kind: Kind, answer: Option<Remote>) {
    answer.Some? && answer.value.known && (answer.value.direct <==> kind == Mute)
  }

  /** Up to three reads; one that matches confirms. */
  predicate Confirmation(kind: Kind, answers: seq<Option<Remote>>) {
    exists k :: 0 <= k < |answers| && k < 3 && Confirms(kind, answers[k])
  }

  predicate HasItem(s: State, j: JobId, status: ItemStatus) {
    exists i :: i in s.items && s.items[i].job == j && s.items[i].status == status
  }

  function TallyStatus(s: State, j: JobId): JobStatus {
    if HasItem(s, j, ItemUncertain) then NeedsReview
    else if HasItem(s, j, ItemPending) then Cancelled
    else if HasItem(s, j, SkippedChanged) || HasItem(s, j, SkippedCancelled) then CompletedWithSkips
    else Completed
  }

  predicate WritesAllowed(s: State, did: Did) {
    s.writesEnabled && did in s.accountWrites
  }

  // ----- the worker -----

  /** The one durable write or remote call a worker step makes. */
  datatype Change =
    | Nothing
    | JobTo(job: JobId, jobStatus: JobStatus)
    | ItemTo(item: ItemId, status: ItemStatus, attempt: Option<nat>)
    | SkipPending(job: JobId)
    | ReserveEffect(did: Did)
    | EffectTo(effect: EffectId, effectStatus: EffectStatus)
    | JournalTo(did: Did, event: Event, committed: bool, demotes: Option<ItemId>)
    | Remotely(write: Write)
    | Observed(item: ItemId)

  /** What a worker step writes, and where the worker stands after it. */
  datatype Act = Act(change: Change, to: Phase)

  function Do(s: State, c: Change): State {
    s.(jobs := if c.JobTo? then WithJob(s.jobs, c.job, c.jobStatus) else s.jobs,
       items := if c.ItemTo? then WithItem(s.items, c.item, c.status, c.attempt)
                else if c.SkipPending? then SkipItems(s.items, c.job) else s.items,
       effects := if c.ReserveEffect? then s.effects[s.nextEffect := EffectRow(c.did, EffectAttempting)]
                  else if c.EffectTo? then WithEffect(s.effects, c.effect, c.effectStatus) else s.effects,
       nextEffect := if c.ReserveEffect? then s.nextEffect + 1 else s.nextEffect,
       engines := if c.JournalTo? && c.committed then s.engines[c.did := History(s, c.did) + [c.event]]
                  else if c.Remotely? then
                    s.engines[c.write.did := History(s, c.write.did) + [Sent(c.write.row.subject, c.write.kind, c.write.attempt)]]
                  else s.engines,
       log := if c.JournalTo? && c.committed && c.demotes.Some? then s.log + [Demoted(c.demotes.value)]
              else if c.Remotely? then s.log + [Wrote(c.write)]
              else if c.Observed? then s.log + [Matched(c.item)] else s.log)
  }

  /** From the claim to the item loop. */
  function Enter(s: State, run: Run, gate: Gate, w: WorkerStep): Act {
    match (gate, w)
    case (Unchecked, CheckDeletion) =>
      Act(Nothing, if run.did in s.deletions then Exiting(run.job, Cancelled) else Entering(run, NotDeleting))
    case (NotDeleting, CheckAccount(expired)) =>
      Act(Nothing, if expired then Exiting(run.job, NeedsReview)
                   else if run.did !in s.users || !s.users[run.did] then Finishing(run.job, Disconnected)
                   else Entering(run, Connected))
    case (Connected, CheckPolicy) =>
      Act(Nothing, if run.policy !in s.policies || s.policies[run.policy] != PolicyRow(run.did, run.revision)
                   then Exiting(run.job, CompletedWithSkips) else Entering(run, Current))
    case (Current, Acquire(AcquireRateLimited)) => Act(JobTo(run.job, Queued), Idle)
    case (Current, Acquire(AcquireFailed(reconnect))) =>
      Act(Nothing, Finishing(run.job, if reconnect then AwaitingReconnect else Failed))
    case (Current, Acquire(Receipt(rows, pending))) =>
      Act(Nothing, if Planned(rows, JournalOf(s, run.did)) && PendingItems(s, run.job, pending) then Looping(run, rows, pending)
                   else s.worker)
    case _ => Act(Nothing, s.worker)
  }

  /** The head of the item loop. */
  function NextItemAct(s: State, run: Run, rows: map<Did, Row>, rest: seq<ItemId>): Act {
    Act(Nothing, if rest == [] then Tallying(run)
                 else if run.did in s.deletions then Breaking(run)
                 else if rest[0] in s.items then AtItem(Turn(run, rows, rest[0], s.items[rest[0]].row, rest[1..]), Undeleted)
                 else s.worker)
  }

  /** The checks before an item's effect. */
  function CheckItem(s: State, t: Turn, point: Point, w: WorkerStep): Act {
    var skipped := Act(ItemTo(t.item, SkippedChanged, None), Looping(t.run, t.rows, t.rest));
    match (point, w)
    case (Undeleted, CheckCancel) =>
      Act(Nothing, if t.run.job !in s.jobs then Finishing(t.run.job, Failed)
                   else if s.jobs[t.run.job].cancel then Breaking(t.run) else AtItem(t, Chosen))
    case (Chosen, Observe(recheck)) =>
      if !Applies(t.run, t.rows, t.row) then skipped
      else (match recheck
            case RateLimited => Act(JobTo(t.run.job, Queued), Idle)
            case ReadFailed(reconnect) => Act(Nothing, Finishing(t.run.job, if reconnect then AwaitingReconnect else Failed))
            case StateChanged => skipped
            case StateSame => Act(Nothing, AtItem(t, Unchanged)))
    case (Unchanged, Reserve(available)) =>
      if available && WritesAllowed(s, t.run.did) then Act(ReserveEffect(t.run.did), Reserved(t, s.nextEffect))
      else Act(Nothing, Finishing(t.run.job, Paused))
    case _ => Act(Nothing, s.worker)
  }

  predicate Commits(call: Call) {
    call.Returned? || call.committed
  }

  function Opening(s: State, t: Turn): Event {
    Begun(t.row.subject, KindOf(t.run.kind), |JournalOf(s, t.run.did).attempts|)
  }

  function Closing(t: Turn, n: nat, success: bool): Event {
    Finished(t.row.subject, KindOf(t.run.kind), n, success)
  }

  function BeginEffect(s: State, t: Turn, e: EffectId, call: Call): Act {
    Act(JournalTo(t.run.did, Opening(s, t), Commits(call), None),
        if call.Returned? then InEffect(t, e, Opening(s, t).attempt, Journalled) else BeginFailed(t, e))
  }

  /** Mark, gate, request. */
  function StartEffect(s: State, t: Turn, e: EffectId, n: nat, stage: Stage, w: WorkerStep): Act {
    match (stage, w)
    case (Journalled, Mark) => Act(ItemTo(t.item, Attempting, Some(n)), InEffect(t, e, n, Marked))
    case (Marked, CheckGate(readable)) =>
      Act(Nothing, InEffect(t, e, n, if readable && WritesAllowed(s, t.run.did) then Gated else Refused))
    case (Gated, Send(raises)) =>
      Act(Remotely(Write(t.item, t.run.job, t.run.did, t.row, KindOf(t.run.kind), e, n)),
          InEffect(t, e, n, if raises then Caught else Requested))
    case _ => Act(Nothing, s.worker)
  }

  /** Read back, close the journal, record. */
  function FinishEffect(s: State, t: Turn, e: EffectId, n: nat, stage: Stage, w: WorkerStep): Act {
    match (stage, w)
    case (Requested, Confirm(answers)) =>
      var ok := Confirmation(KindOf(t.run.kind), answers);
      Act(if ok then Observed(t.item) else Nothing, InEffect(t, e, n, ReadBack(ok)))
    case (ReadBack(ok), Finish(call)) =>
      Act(JournalTo(t.run.did, Closing(t, n, ok), Commits(call), None),
          InEffect(t, e, n, if call.Returned? then Closed(ok) else Caught))
    case (Closed(ok), Record) =>
      Act(ItemTo(t.item, if ok then ItemConfirmed else ItemUncertain, Some(n)), InEffect(t, e, n, Recorded(ok)))
    case (Closed(_), Throw) => Act(Nothing, InEffect(t, e, n, Caught))
    case (Recorded(ok), CloseEffect) =>
      Act(EffectTo(e, if ok then EffectConfirmed else EffectUncertain), Looping(t.run, t.rows, t.rest))
    case (Recorded(_), Throw) => Act(Nothing, InEffect(t, e, n, Caught))
    case _ => Act(Nothing, s.worker)
  }

  /** A confirmed item whose attempt the handler is about to overwrite. */
  predicate Overwrites(s: State, t: Turn) {
    t.item in s.items && s.items[t.item].status == ItemConfirmed
  }

  /** The handler around an effect: close the attempt as unresolved, never replay. */
  function CatchEffect(s: State, t: Turn, e: EffectId, n: nat, stage: Stage, w: WorkerStep): Act {
    match (stage, w)
    case (Caught, Finish(call)) =>
      Act(JournalTo(t.run.did, Closing(t, n, false), Commits(call), if Overwrites(s, t) then Some(t.item) else None),
          if call.Returned? then InEffect(t, e, n, CaughtClosed) else Finishing(t.run.job, Failed))
    case (CaughtClosed, Record) => Act(ItemTo(t.item, ItemUncertain, Some(n)), InEffect(t, e, n, CaughtRecorded))
    case (CaughtRecorded, CloseEffect) => Act(EffectTo(e, EffectUncertain), Looping(t.run, t.rows, t.rest))
    case _ => Act(Nothing, s.worker)
  }

  /** The last gate refused: the journal row is closed unsent and the item returns to pending. */
  function RefuseEffect(s: State, t: Turn, e: EffectId, n: nat, stage: Stage, w: WorkerStep): Act {
    match (stage, w)
    case (Refused, Finish(call)) =>
      Act(JournalTo(t.run.did, Closing(t, n, false), Commits(call), None),
          if call.Returned? then InEffect(t, e, n, RefusedClosed) else Finishing(t.run.job, Failed))
    case (RefusedClosed, Record) => Act(ItemTo(t.item, ItemPending, Some(n)), InEffect(t, e, n, RefusedReset))
    case (RefusedReset, CloseEffect) => Act(EffectTo(e, EffectRefused), Finishing(t.run.job, Paused))
    case _ => Act(Nothing, s.worker)
  }

  function Effect(s: State, t: Turn, e: EffectId, n: nat, stage: Stage, w: WorkerStep): Act {
    match stage
    case Journalled | Marked | Gated => StartEffect(s, t, e, n, stage, w)
    case Requested | ReadBack(_) | Closed(_) | Recorded(_) => FinishEffect(s, t, e, n, stage, w)
    case Caught | CaughtClosed | CaughtRecorded => CatchEffect(s, t, e, n, stage, w)
    case Refused | RefusedClosed | RefusedReset => RefuseEffect(s, t, e, n, stage, w)
  }

  /** Where a raised error ends the whole run: everywhere but in the effect's own handler. */
  function Throwing(p: Phase): Option<JobId> {
    match p
    case Down | Idle => None
    case Claimed(j) => Some(j)
    case Entering(run, _) => Some(run.job)
    case Looping(run, _, _) => Some(run.job)
    case AtItem(t, _) => Some(t.run.job)
    case Reserved(t, _) => Some(t.run.job)
    case BeginFailed(t, _) => Some(t.run.job)
    case InEffect(t, _, _, stage) =>
      if stage.Journalled? || stage.CaughtClosed? || stage.CaughtRecorded? || stage.RefusedClosed? || stage.RefusedReset?
      then Some(t.run.job) else None
    case Breaking(run) => Some(run.job)
    case Tallying(run) => Some(run.job)
    case Exiting(j, _) => Some(j)
    case Finishing(j, _) => Some(j)
  }

  function Decide(s: State, w: WorkerStep): Act {
    if w == Throw && Throwing(s.worker).Some? then Act(Nothing, Finishing(Throwing(s.worker).value, Failed))
    else
      match (s.worker, w)
      case (Idle, Claim(j)) =>
        if s.writesEnabled && j in s.jobs && s.jobs[j].status == Queued then Act(JobTo(j, Running), Claimed(j))
        else Act(Nothing, s.worker)
      case (Claimed(j), Load) =>
        Act(Nothing, if j in s.jobs then
                       Entering(Run(j, s.jobs[j].did, s.jobs[j].policy, s.jobs[j].revision, s.jobs[j].kind), Unchecked)
                     else Idle)
      case (Entering(run, gate), _) => Enter(s, run, gate, w)
      case (Looping(run, rows, rest), NextItem) => NextItemAct(s, run, rows, rest)
      case (AtItem(t, point), _) => CheckItem(s, t, point, w)
      case (Reserved(t, e), Begin(call)) => BeginEffect(s, t, e, call)
      case (BeginFailed(t, e), CloseEffect) => Act(EffectTo(e, EffectRefused), Finishing(t.run.job, Failed))
      case (InEffect(t, e, n, stage), _) => Effect(s, t, e, n, stage, w)
      case (Breaking(run), Skip) => Act(SkipPending(run.job), Tallying(run))
      case (Tallying(run), Tally) => Act(Nothing, Finishing(run.job, TallyStatus(s, run.job)))
      case (Exiting(j, status), Skip) => Act(SkipPending(j), Finishing(j, status))
      case (Finishing(j, status), FinishJob) => Act(JobTo(j, status), Idle)
      case _ => Act(Nothing, s.worker)
  }

  function WorkerNext(s: State, w: WorkerStep): State {
    var act := Decide(s, w);
    Do(s, act.change).(worker := act.to)
  }

  /** Restart: whatever was being attempted is uncertain; an interrupted job resumes only without one. */
  function RecoverTx(s: State): State {
    var items := map i | i in s.items ::
      if s.items[i].status == Attempting then s.items[i].(status := ItemUncertain) else s.items[i];
    var marked := s.(items := items);
    s.(items := items,
       jobs := map j | j in s.jobs ::
         if s.jobs[j].status == Running && HasItem(marked, j, ItemUncertain) then s.jobs[j].(status := NeedsReview)
         else if s.jobs[j].status == Running || s.jobs[j].status == Queued then
           s.jobs[j].(status := if s.writesEnabled then Queued else Paused)
         else s.jobs[j],
       worker := Idle)
  }

  // ----- the web process -----

  predicate DistinctSubjects(rows: seq<Row>) {
    forall k, l :: 0 <= k < l < |rows| ==> rows[k].subject != rows[l].subject
  }

  predicate Inactive(s: State, did: Did) {
    forall j :: j in s.jobs && s.jobs[j].did == did ==> s.jobs[j].status != Running
  }

  /** Each request's own check. */
  predicate Allowed(s: State, w: WebStep) {
    match w
    case SignIn(_) | SetWrites(_) => true
    case Disconnect(d) => d in s.users
    case CreatePolicy(d) => d in s.users
    case EditPolicy(p) => p in s.policies
    case Approve(d, p, kind, rows) =>
      WritesAllowed(s, d) && p in s.policies && s.policies[p].did == d && rows != [] && DistinctSubjects(rows) &&
      forall k :: 0 <= k < |rows| ==> rows[k].action == Expected(kind)
    case Cancel(j) => j in s.jobs
    case ResumeJob(j) => j in s.jobs
    case SetAccountWrites(d, _) => d in s.users
    case RequestDeletion(d) => d in s.users
    case CheckStanding(d) => d in s.deletions && Inactive(s, d)
    case Purge(d, _) => d in s.standing
  }

  predicate Within(i: ItemId, first: ItemId, count: nat) {
    first <= i < first + count
  }

  function NewItems(first: ItemId, j: JobId, rows: seq<Row>): map<ItemId, Item> {
    map i | first <= i < first + |rows| && Within(i, first, |rows|) :: Item(j, rows[i - first], ItemPending, None)
  }

  /** An approval becomes a queued job with one pending item for each approved row. */
  function ApproveTx(s: State, did: Did, policy: PolicyRow, p: PolicyId, kind: JobKind, rows: seq<Row>): State {
    s.(jobs := s.jobs[s.nextJob := Job(did, p, policy.revision, kind, Queued, false)],
       items := s.items + NewItems(s.nextItem, s.nextJob, rows),
       approvals := s.approvals[s.nextJob := Approval(did, kind, rows)],
       nextJob := s.nextJob + 1, nextItem := s.nextItem + |rows|)
  }

  predicate Interruptible(status: JobStatus) {
    status == Queued || status == AwaitingReconnect || status == Paused
  }

  /** What account, operator and deletion requests do to a job. */
  function JobAfter(j: JobId, job: Job, w: WebStep): Job {
    match w
    case Disconnect(d) =>
      if job.did == d && (job.status == Queued || job.status == Running) then
        job.(cancel := true, status := if job.status == Queued then Disconnected else Running)
      else job
    case Cancel(k) => if j == k then job.(cancel := true) else job
    case ResumeJob(k) => if j == k && job.status == Paused then job.(status := Queued) else job
    case SetWrites(enabled) => if !enabled && job.status == Queued then job.(status := Paused) else job
    case RequestDeletion(d) =>
      if job.did != d then job
      else if Interruptible(job.status) then job.(cancel := true, status := Cancelled)
      else if job.status == Running then job.(cancel := true)
      else job
    case _ => job
  }

  function SettingTx(s: State, w: WebStep): State {
    s.(jobs := map j | j in s.jobs :: JobAfter(j, s.jobs[j], w),
       users := if w.SignIn? then s.users[w.did := true] else if w.Disconnect? then s.users[w.did := false] else s.users,
       policies := if w.CreatePolicy? then s.policies[s.nextPolicy := PolicyRow(w.did, 1)]
                   else if w.EditPolicy? && w.policy in s.policies then
                     s.policies[w.policy := s.policies[w.policy].(revision := s.policies[w.policy].revision + 1)]
                   else s.policies,
       nextPolicy := if w.CreatePolicy? then s.nextPolicy + 1 else s.nextPolicy,
       writesEnabled := if w.SetWrites? then w.enabled else s.writesEnabled,
       accountWrites := if w.SetAccountWrites? then
                          (if w.enabled then s.accountWrites + {w.did} else s.accountWrites - {w.did})
                        else s.accountWrites,
       deletions := if w.RequestDeletion? then s.deletions + {w.did} else s.deletions,
       standing := if w.CheckStanding? then s.standing + {w.did} else s.standing,
       log := if w.RequestDeletion? then s.log + [DeletionRequested(w.did)] else s.log)
  }

  function JobsOf(s: State, did: Did): set<JobId> {
    set j | j in s.jobs && s.jobs[j].did == did
  }

  /** Erasure of an account's rows; the engine store is a separate file that goes last. */
  function PurgeTx(s: State, did: Did, engineRemoved: bool): State {
    var gone := JobsOf(s, did);
    s.(users := s.users - {did}, deletions := s.deletions - {did}, standing := s.standing - {did},
       accountWrites := s.accountWrites - {did},
       policies := map p | p in s.policies && s.policies[p].did != did :: s.policies[p],
       jobs := s.jobs - gone,
       items := map i | i in s.items && s.items[i].job !in gone :: s.items[i],
       effects := map e | e in s.effects && s.effects[e].did != did :: s.effects[e],
       engines := if engineRemoved then s.engines - {did} else s.engines,
       log := s.log + [Erased(did, s.nextJob)])
  }

  function WebNext(s: State, w: WebStep): State {
    if !Allowed(s, w) then s
    else if w.Approve? then ApproveTx(s, w.did, s.policies[w.policy], w.policy, w.kind, w.rows)
    else if w.Purge? then PurgeTx(s, w.did, w.engineRemoved)
    else SettingTx(s, w)
  }

  function Next(s: State, a: Step): State {
    match a
    case Worker(w) => WorkerNext(s, w)
    case Web(w) => WebNext(s, w)
    case Crash => s.(worker := Down)
    case Recover => if s.worker == Down then RecoverTx(s) else s
  }

  const INITIAL :=
    State(map[], map[], map[], map[], map[], {}, {}, true, {}, map[], map[], 0, 0, 0, 0, Down, [])

  // ----- runs -----

  predicate Moved(states: seq<State>, steps: seq<Step>, i: nat)
    requires i < |steps| && |states| == |steps| + 1
  {
    states[i + 1] == Next(states[i], steps[i])
  }

  /** Any interleaving of worker steps, web requests, crashes and restarts from the empty service. */
  ghost predicate IsRun(states: seq<State>, steps: seq<Step>) {
    |states| == |steps| + 1 && states[0] == INITIAL && forall i {:trigger Moved(states, steps, i)} :: 0 <= i < |steps| ==> Moved(states, steps, i)
  }

  ghost predicate Reachable(s: State) {
    exists states, steps :: IsRun(states, steps) && states[|steps|] == s
  }

  lemma InitialIsReachable()
    ensures Reachable(INITIAL)
  {
    assert IsRun([INITIAL], []);
  }

  lemma ReachNext(s: State, a: Step)
    requires Reachable(s)
    ensures Reachable(Next(s, a))
  {
    hide Next;
    var states, steps :| IsRun(states, steps) && states[|steps|] == s;
    var more, all := states + [Next(s, a)], steps + [a];
    forall i | 0 <= i < |all| ensures Moved(more, all, i) {
      if i < |steps| { assert Moved(states, steps, i); }
    }
    assert IsRun(more, all) && more[|all|] == Next(s, a);
  }
}
