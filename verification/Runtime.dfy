/** The command line's orchestration: receipts, and the execution loop that journals each effect,
    checks it again at write time and may be killed between any two durable steps. */
module Runtime {
  import opened Wrappers
  import opened Policy
  import PolicySoundness
  import Receipts
  import opened Planning
  import opened Ledger

  datatype OverrideSets = OverrideSets(exempt: set<Did>, allow: set<Did>, keepMuted: set<Did>)

  /** Hashes are kept as what they digest: the policy, the override sets and the effective
      configuration (None in a legacy proposal). */
  datatype Receipt = Receipt(account: Did, policy: CompiledPolicy, overrides: OverrideSets, effective: Option<string>,
                             fixture: bool, evidence: EvidenceSet, rows: seq<Row>)

  datatype Refusal =
    | FixtureEvidence | CannotObserve | CannotApply | CannotRelease | NothingSelected | LegacyProposal | ContextChanged
    | NotACandidate | ConditionsChanged | TooManyActions

  datatype ExecutionStatus = StateChanged | Uncertain | Effected

  datatype Execution = Execution(subject: Did, status: ExecutionStatus)

  datatype Capabilities = Capabilities(canObserve: bool, canApply: bool, canRelease: bool)

  /** A request the execution sent: the row it served, when it was judged, and its place in the history. */
  datatype Effect = Effect(row: Row, at: Time, position: nat)

  predicate UniqueSubjects(rows: seq<Row>) {
    forall i, j :: 0 <= i < j < |rows| ==> rows[i].subject != rows[j].subject
  }

  function Layers(o: OverrideSets, did: Did): Overrides {
    Overrides(did in o.exempt, did in o.allow, did in o.keepMuted)
  }

  function RowFor(policy: CompiledPolicy, ev: EvidenceSet, j: Journal, overrides: OverrideSets, remote: map<Did, Remote>,
                  followed: set<Did>, did: Did, now: Time): Row
    requires Compiled(policy)
  {
    PlanAction(Evaluate(policy, ev, did, now), if did in remote then remote[did] else UNOBSERVED, Status(j, did),
               Layers(overrides, did), did in followed)
  }

  lemma UsedByAppend(policy: CompiledPolicy, ev: EvidenceSet, subjects: seq<Did>, did: Did, now: Time)
    requires Compiled(policy)
    ensures Receipts.UsedBy(policy, ev, subjects + [did], now) == Receipts.UsedBy(policy, ev, subjects, now) + UsedIds(policy, ev, did, now)
  {
  }

  method PlanRow(policy: CompiledPolicy, store: Store, did: Did, ev: EvidenceSet, overrides: OverrideSets,
                 remote: map<Did, Remote>, followed: set<Did>, now: Time) returns (row: Row, ids: set<Fact>)
    requires Compiled(policy)
    ensures row == RowFor(policy, ev, store.Tables(), overrides, remote, followed, did, now)
    ensures ids == UsedIds(policy, ev, did, now)
  {
    var decision := EvaluateRules(policy, ev, did, now);
    var observed := if did in remote then remote[did] else UNOBSERVED;
    row := PlanAction(decision, observed, Status(store.Tables(), did), Layers(overrides, did), did in followed);
    ids := decision.evidenceIds;
  }

  method BuildReceipt(policy: CompiledPolicy, store: Store, subjects: seq<Did>, ev: EvidenceSet, overrides: OverrideSets,
                      remote: map<Did, Remote>, followed: set<Did>, account: Did, effective: string, now: Time)
    returns (receipt: Receipt)
    requires Compiled(policy)
    ensures receipt.policy == policy && receipt.evidence == Receipts.Trim(policy, ev, subjects, now)
    ensures |receipt.rows| == |subjects|
    ensures forall i :: 0 <= i < |subjects| ==>
              receipt.rows[i] == RowFor(policy, ev, store.Tables(), overrides, remote, followed, subjects[i], now)
  {
    hide RowFor, UsedIds;
    var rows: seq<Row> := [];
    var ids: set<Fact> := {};
    for n := 0 to |subjects|
      invariant |rows| == n
      invariant forall i :: 0 <= i < n ==>
                  rows[i] == RowFor(policy, ev, store.Tables(), overrides, remote, followed, subjects[i], now)
      invariant ids == Receipts.UsedBy(policy, ev, subjects[..n], now)
    {
      var row, used := PlanRow(policy, store, subjects[n], ev, overrides, remote, followed, now);
      rows := rows + [row];
      UsedByAppend(policy, ev, subjects[..n], subjects[n], now);
      assert subjects[..n + 1] == subjects[..n] + [subjects[n]];
      ids := ids + used;
    }
    assert subjects[..|subjects|] == subjects;
    receipt := Receipt(account, policy, overrides, Some(effective), false,
                       EvidenceSet(Receipts.KeepUsed(ev.observations, ids), ev.coverage), rows);
  }

  function FindRow(rows: seq<Row>, did: Did): (r: Option<Row>)
    ensures r.Some? ==> r.value in rows && r.value.subject == did
    ensures r.None? ==> forall i :: 0 <= i < |rows| ==> rows[i].subject != did
  {
    if rows == [] then None else if rows[0].subject == did then Some(rows[0]) else FindRow(rows[1..], did)
  }

  /** A reviewed and a current candidate with equal fingerprints. */
  predicate Reviewed(previous: seq<Row>, current: seq<Row>, did: Did) {
    var p, c := FindRow(previous, did), FindRow(current, did);
    p.Some? && c.Some? && p.value.action == ReleaseCandidate && p.value == c.value
  }

  function ReviewRefusal(previous: Receipt, current: Receipt, selected: set<Did>): Option<Refusal> {
    if previous.fixture then Some(FixtureEvidence)
    else if selected == {} then Some(NothingSelected)
    else if previous.effective.None? then Some(LegacyProposal)
    else if previous.account != current.account || previous.policy != current.policy ||
            previous.overrides != current.overrides || previous.effective != current.effective then Some(ContextChanged)
    else if exists did :: did in selected &&
              var p, c := FindRow(previous.rows, did), FindRow(current.rows, did);
              p.None? || c.None? || p.value.action != ReleaseCandidate || c.value.action != ReleaseCandidate then Some(NotACandidate)
    else if exists did :: did in selected && !Reviewed(previous.rows, current.rows, did) then Some(ConditionsChanged)
    else None
  }

  function Refuses(receipt: Receipt, live: bool, caps: Capabilities, release: Option<Receipt>, selected: set<Did>): Option<Refusal> {
    if !live || receipt.fixture then Some(FixtureEvidence)
    else if !caps.canObserve then Some(CannotObserve)
    else match release
      case None => if !caps.canApply then Some(CannotApply) else None
      case Some(previous) => if !caps.canRelease then Some(CannotRelease) else ReviewRefusal(previous, receipt, selected)
  }

  function Candidates(rows: seq<Row>, release: Option<Receipt>, selected: set<Did>): (c: seq<Row>)
    ensures forall i :: 0 <= i < |c| ==> c[i] in rows && (if release.None? then c[i].action == MuteAction else c[i].subject in selected)
  {
    if rows == [] then []
    else
      (if (if release.None? then rows[0].action == MuteAction else rows[0].subject in selected) then [rows[0]] else [])
      + Candidates(rows[1..], release, selected)
  }

  /** Why acting on a row is right at a time: a fresh evaluation, the unchanged remote state, the
      overrides in force; for a release, also the reviewed proposal. */
  ghost predicate Rightful(receipt: Receipt, release: Option<Receipt>, selected: set<Did>, row: Row, at: Time)
    requires Compiled(receipt.policy)
  {
    var did, o := row.subject, row.observed;
    var outcome := Evaluate(receipt.policy, receipt.evidence, did, at).outcome;
    row in receipt.rows && !row.overrides.exempt && o.known &&
    match release
    case None => outcome == Quarantined && !row.overrides.allow && !HasMute(o) && !o.blocked
    case Some(previous) =>
      did in selected && Reviewed(previous.rows, receipt.rows, did) && AttributableShape(o) && !row.overrides.keepMuted &&
      (outcome == NoJustification || row.overrides.allow)
  }

  /** A request was justified when it left: rightful then, and begun on a ledger without an
      outstanding claim. */
  ghost predicate Justified(receipt: Receipt, release: Option<Receipt>, selected: set<Did>, e: Effect, h: seq<Event>)
    requires Compiled(receipt.policy)
  {
    0 < e.position < |h| && h[e.position].Sent? && h[e.position].did == e.row.subject &&
    h[e.position].kind == (if release.None? then Mute else Unmute) &&
    Permits(Status(Replay(h[..e.position - 1]), e.row.subject), release.None?) &&
    Rightful(receipt, release, selected, e.row, e.at)
  }

  /** `h` extends `before`, and its new requests are exactly the listed effects, each justified. */
  ghost predicate Accounts(before: seq<Event>, h: seq<Event>, effects: seq<Effect>, receipt: Receipt, release: Option<Receipt>, selected: set<Did>)
    requires Compiled(receipt.policy)
  {
    before <= h &&
    (forall k :: 0 <= k < |effects| ==> Justified(receipt, release, selected, effects[k], h)) &&
    (forall p :: |before| <= p < |h| && h[p].Sent? ==> exists k :: 0 <= k < |effects| && effects[k].position == p)
  }

  lemma AccountsQuiet(before: seq<Event>, h: seq<Event>, e: Event, effects: seq<Effect>, receipt: Receipt, release: Option<Receipt>, selected: set<Did>)
    requires Compiled(receipt.policy) && Accounts(before, h, effects, receipt, release, selected) && !e.Sent?
    ensures Accounts(before, h + [e], effects, receipt, release, selected)
  {
    forall k | 0 <= k < |effects| ensures Justified(receipt, release, selected, effects[k], h + [e]) {
      assert (h + [e])[..effects[k].position - 1] == h[..effects[k].position - 1];
    }
  }

  lemma AccountsSent(before: seq<Event>, h: seq<Event>, e: Event, effects: seq<Effect>, f: Effect, receipt: Receipt, release: Option<Receipt>, selected: set<Did>)
    requires Compiled(receipt.policy) && Accounts(before, h, effects, receipt, release, selected)
    requires f.position == |h| && Justified(receipt, release, selected, f, h + [e])
    ensures Accounts(before, h + [e], effects + [f], receipt, release, selected)
  {
    var all := effects + [f];
    forall k | 0 <= k < |all| ensures Justified(receipt, release, selected, all[k], h + [e]) {
      if k < |effects| { assert (h + [e])[..effects[k].position - 1] == h[..effects[k].position - 1]; }
    }
    forall p | |before| <= p < |h + [e]| && (h + [e])[p].Sent? ensures exists k :: 0 <= k < |all| && all[k].position == p {
      if p == |h| { assert all[|effects|].position == p; } else {
        var k :| 0 <= k < |effects| && effects[k].position == p;
        assert all[k].position == p;
      }
    }
  }

  /** The fresh plan equals the reviewed row only when the effect is justified and permitted. */
  lemma FreshPlanJustifies(receipt: Receipt, release: Option<Receipt>, selected: set<Did>, row: Row, at: Time, status: LedgerStatus)
    requires Compiled(receipt.policy) && row in Candidates(receipt.rows, release, selected) && row in receipt.rows
    requires release.Some? ==> row.subject in selected && Reviewed(release.value.rows, receipt.rows, row.subject) && row.action == ReleaseCandidate
    requires PlanAction(Evaluate(receipt.policy, receipt.evidence, row.subject, at), row.observed, status, row.overrides, row.followedReview) == row
    ensures Permits(status, release.None?) && Rightful(receipt, release, selected, row, at)
  {
    var d := Evaluate(receipt.policy, receipt.evidence, row.subject, at);
    MutePlannedExactly(d, row.observed, status, row.overrides, row.followedReview);
    ReleasePlannedExactly(d, row.observed, status, row.overrides, row.followedReview);
  }

  /** What the suspension pass writes: one halt for each row to be suspended, in order. */
  function Suspensions(rows: seq<Row>): seq<Event> {
    if rows == [] then []
    else
      var last := rows[|rows| - 1];
      Suspensions(rows[..|rows| - 1]) + if last.action == SuspendAction then [Halted(last.subject)] else []
  }

  lemma SuspensionsAppend(rows: seq<Row>, n: nat)
    requires n < |rows|
    ensures Suspensions(rows[..n + 1]) ==
            Suspensions(rows[..n]) + if rows[n].action == SuspendAction then [Halted(rows[n].subject)] else []
  {
    assert rows[..n + 1][..n] == rows[..n];
  }

  /** Suspends every subject whose attributed mute was changed by hand; may be killed part way. */
  method SuspendChanged(store: Store, rows: seq<Row>, receipt: Receipt, release: Option<Receipt>, selected: set<Did>) returns (killed: bool)
    requires store.Valid() && Compiled(receipt.policy)
    modifies store
    ensures store.Valid() && Accounts(old(store.history), store.history, [], receipt, release, selected)
    ensures if killed then exists n: nat :: n <= |rows| && store.history == old(store.history) + Suspensions(rows[..n])
            else store.history == old(store.history) + Suspensions(rows)
  {
    hide Suspensions;
    ghost var before := store.history;
    assert rows[..0] == [] && Suspensions([]) == [] by { NothingSuspended(); }
    for n := 0 to |rows|
      invariant store.Valid() && Accounts(before, store.history, [], receipt, release, selected)
      invariant store.history == before + Suspensions(rows[..n])
    {
      SuspensionsAppend(rows, n);
      if rows[n].action == SuspendAction {
        AccountsQuiet(before, store.history, Halted(rows[n].subject), [], receipt, release, selected);
        store.Set(rows[n].subject, Suspended);
        killed := *;
        if killed { return; }
      }
    }
    assert rows[..|rows|] == rows;
    killed := false;
  }

  lemma NothingSuspended()
    ensures Suspensions([]) == []
  {
  }

  lemma JournalledAttempt(h: seq<Event>, did: Did, kind: Kind, attempt: nat)
    requires Lawful(h) && h != [] && h[|h| - 1] == Sent(did, kind, attempt)
    ensures LawfulStep(h, Finished(did, kind, attempt, true)) && LawfulStep(h, Finished(did, kind, attempt, false))
  {
    SentAfterBegun(h, |h| - 1);
    LawfulAt(h, |h| - 1);
    LawfulAt(h, |h| - 2);
    assert h[..|h|] == h && h[..|h| - 2 + 1] == h[..|h| - 1];
  }

  lemma ReviewedCandidate(receipt: Receipt, release: Option<Receipt>, selected: set<Did>, row: Row)
    requires UniqueSubjects(receipt.rows) && row in Candidates(receipt.rows, release, selected)
    requires release.Some? ==> ReviewRefusal(release.value, receipt, selected).None?
    ensures row in receipt.rows
    ensures release.Some? ==> row.subject in selected && Reviewed(release.value.rows, receipt.rows, row.subject) && row.action == ReleaseCandidate
  {
    if release.Some? {
      var c := FindRow(receipt.rows, row.subject);
      assert Reviewed(release.value.rows, receipt.rows, row.subject);
      var i :| 0 <= i < |receipt.rows| && receipt.rows[i] == c.value;
      var k :| 0 <= k < |receipt.rows| && receipt.rows[k] == row;
      assert i == k;
    }
  }

  lemma SentJustified(h: seq<Event>, did: Did, kind: Kind, attempt: nat, receipt: Receipt, release: Option<Receipt>, selected: set<Did>,
                      row: Row, at: Time)
    requires Compiled(receipt.policy) && Rightful(receipt, release, selected, row, at)
    requires did == row.subject && kind == (if release.None? then Mute else Unmute) && Permits(Status(Replay(h), did), kind == Mute)
    ensures Justified(receipt, release, selected, Effect(row, at, |h| + 1), h + [Begun(did, kind, attempt)] + [Sent(did, kind, attempt)])
  {
    hide Rightful;
    assert (h + [Begun(did, kind, attempt)] + [Sent(did, kind, attempt)])[..|h|] == h;
  }

  datatype Turn = Killed | Turned(execution: Execution)

  /** What one effect leaves in the history: the journal row, the request and the close, the last two unless the
      process died before them; a raised request is closed as unresolved. */
  ghost predicate Journalled(before: seq<Event>, h: seq<Event>, did: Did, kind: Kind, attempt: nat, turn: Turn) {
    var begun := before + [Begun(did, kind, attempt)];
    if turn.Killed? then h == begun || h == begun + [Sent(did, kind, attempt)]
    else h == begun + [Sent(did, kind, attempt)] + [Finished(did, kind, attempt, turn.execution.status == Effected)]
  }

  /** Journal, request, close: the process may die after each of the three. */
  method SendJournalled(store: Store, row: Row, at: Time, receipt: Receipt, release: Option<Receipt>, selected: set<Did>,
                        ghost before: seq<Event>, ghost effects: seq<Effect>) returns (turn: Turn, ghost all: seq<Effect>)
    requires store.Valid() && Compiled(receipt.policy) && Accounts(before, store.history, effects, receipt, release, selected)
    requires Permits(Status(store.Tables(), row.subject), release.None?)
    requires Rightful(receipt, release, selected, row, at)
    modifies store
    ensures store.Valid() && Accounts(before, store.history, all, receipt, release, selected)
    ensures |all| <= |effects| + 1 && (turn.Turned? ==> turn.execution.subject == row.subject && turn.execution.status != StateChanged)
    ensures Journalled(old(store.history), store.history, row.subject, if release.Some? then Unmute else Mute, |old(store.attempts)|, turn)
  {
    hide Rightful, Lawful, Justified, Accounts;
    ghost var h := store.history;
    all := effects;
    var did, kind := row.subject, if release.Some? then Unmute else Mute;
    AccountsQuiet(before, store.history, Begun(did, kind, |store.attempts|), effects, receipt, release, selected);
    var attempt := store.Begin(did, kind);
    var killed: bool := *;
    if killed { return Killed, all; }
    SentJustified(h, did, kind, attempt, receipt, release, selected, row, at);
    AccountsSent(before, store.history, Sent(did, kind, attempt), effects, Effect(row, at, |store.history|), receipt, release, selected);
    all := effects + [Effect(row, at, |store.history|)];
    store.NoteSent(did, kind, attempt);
    killed := *;
    if killed { return Killed, all; }
    var raised: bool := *;
    JournalledAttempt(store.history, did, kind, attempt);
    AccountsQuiet(before, store.history, Finished(did, kind, attempt, !raised), all, receipt, release, selected);
    store.Finish(attempt, did, kind, !raised);
    turn := Turned(Execution(did, if raised then Uncertain else Effected));
  }

  /** The plan made afresh from the reviewed observation is the reviewed row. */
  predicate Unchanged(receipt: Receipt, row: Row, status: LedgerStatus, at: Time)
    requires Compiled(receipt.policy)
  {
    PlanAction(Evaluate(receipt.policy, receipt.evidence, row.subject, at), row.observed, status, row.overrides, row.followedReview) == row
  }

  /** One candidate: observe and evaluate again, and act only on an unchanged plan. */
  method ExecuteOne(store: Store, row: Row, receipt: Receipt, release: Option<Receipt>, selected: set<Did>,
                    ghost before: seq<Event>, ghost effects: seq<Effect>)
    returns (turn: Turn, ghost all: seq<Effect>, observed: Remote, at: Time)
    requires store.Valid() && Compiled(receipt.policy) && Accounts(before, store.history, effects, receipt, release, selected)
    requires row in Candidates(receipt.rows, release, selected) && UniqueSubjects(receipt.rows)
    requires release.Some? ==> ReviewRefusal(release.value, receipt, selected).None?
    modifies store
    ensures store.Valid() && Accounts(before, store.history, all, receipt, release, selected) && |all| <= |effects| + 1
    ensures var status := Status(old(store.Tables()), row.subject);
            if observed == row.observed && Unchanged(receipt, row, status, at) then
              Journalled(old(store.history), store.history, row.subject, if release.Some? then Unmute else Mute, |old(store.attempts)|, turn)
            else
              turn == Turned(Execution(row.subject, StateChanged)) && all == effects &&
              store.history == old(store.history) + (if observed != row.observed && status == Attributed then [Halted(row.subject)] else [])
  {
    hide Evaluate, Lawful, PlanAction, Rightful, Accounts, Journalled;
    all := effects;
    observed := *;
    at := *;
    var status := Status(store.Tables(), row.subject);
    var decision := EvaluateRules(receipt.policy, receipt.evidence, row.subject, at);
    var freshPlan := PlanAction(decision, observed, status, row.overrides, row.followedReview);
    if observed != row.observed || freshPlan != row {
      if observed != row.observed && status == Attributed {
        AccountsQuiet(before, store.history, Halted(row.subject), effects, receipt, release, selected);
        store.Set(row.subject, Suspended);
      }
      turn := Turned(Execution(row.subject, StateChanged));
    } else {
      ReviewedCandidate(receipt, release, selected, row);
      FreshPlanJustifies(receipt, release, selected, row, at, status);
      turn, all := SendJournalled(store, row, at, receipt, release, selected, before, effects);
    }
  }

  /** Runs a reviewed batch under the state lock. Remote answers, the clock and the moment the
      process dies are arbitrary. */
  method Execute(store: Store, receipt: Receipt, live: bool, caps: Capabilities, release: Option<Receipt>, selected: set<Did>, maxActions: nat)
    returns (r: Result<seq<Execution>, Refusal>, ghost effects: seq<Effect>)
    requires store.Valid() && Compiled(receipt.policy) && UniqueSubjects(receipt.rows)
    modifies store
    ensures store.Valid() && Accounts(old(store.history), store.history, effects, receipt, release, selected)
    ensures |effects| <= maxActions
    ensures r.Err? ==> store.history == old(store.history) && effects == []
    ensures r.Ok? ==> Refuses(receipt, live, caps, release, selected).None?
    // an uncertain outcome stops the batch
    ensures r.Ok? ==> forall k :: 0 <= k < |r.value| - 1 ==> r.value[k].status != Uncertain
  {
    effects := [];
    var refusal := Refuses(receipt, live, caps, release, selected);
    if refusal.Some? { return Err(refusal.value), effects; }
    var candidates := Candidates(receipt.rows, release, selected);
    if |candidates| > maxActions { return Err(TooManyActions), effects; }
    ghost var before := store.history;
    var killed := SuspendChanged(store, receipt.rows, receipt, release, selected);
    var executions: seq<Execution> := [];
    if killed { return Ok(executions), effects; }
    for n := 0 to |candidates|
      invariant store.Valid() && Accounts(before, store.history, effects, receipt, release, selected)
      invariant |effects| <= n
      invariant forall k :: 0 <= k < |executions| ==> executions[k].status != Uncertain
    {
      var turn: Turn, observed: Remote, at: Time;
      turn, effects, observed, at := ExecuteOne(store, candidates[n], receipt, release, selected, before, effects);
      if turn.Killed? { return Ok(executions), effects; }
      executions := executions + [turn.execution];
      // the request may have taken effect: stop, never replay blindly
      if turn.execution.status == Uncertain { return Ok(executions), effects; }
    }
    r := Ok(executions);
  }

  /** An explicit resume, for a suspended or unresolved subject only. */
  method Resume(store: Store, did: Did) returns (resumed: bool)
    requires store.Valid()
    modifies store
    ensures store.Valid() && (resumed <==> Status(old(store.Tables()), did) in {Suspended, Unresolved})
    ensures store.history == if resumed then old(store.history) + [Resumed(did)] else old(store.history)
    ensures store.Tables() == if resumed then SetStatus(old(store.Tables()), did, Untracked) else old(store.Tables())
  {
    var status := Status(store.Tables(), did);
    resumed := status == Suspended || status == Unresolved;
    if resumed { store.Set(did, Untracked); }
  }

  /** A request of each kind is separated from the next of its kind by what releases it. */
  ghost predicate Alternates(h: seq<Event>) {
    forall i, j :: 0 <= i < j < |h| && h[i].Sent? && h[j].Sent? && h[i].did == h[j].did && h[i].kind == h[j].kind ==>
      exists k :: i < k < j && ReleasesKind(h[k], h[i].did, h[i].kind)
  }

  lemma LawfulAlternates(h: seq<Event>)
    requires Lawful(h)
    ensures Alternates(h)
  {
    forall i, j | 0 <= i < j < |h| && h[i].Sent? && h[j].Sent? && h[i].did == h[j].did && h[i].kind == h[j].kind
      ensures exists k :: i < k < j && ReleasesKind(h[k], h[i].did, h[i].kind)
    {
      RequestsAlternate(h, i, j, h[i].did, h[i].kind);
    }
  }

  /** Any number of commands in any order, each with any receipt and each possibly killed: requests
      alternate over the whole life of the store. */
  method Session(store: Store, commands: nat)
    requires store.Valid()
    modifies store
    ensures store.Valid() && old(store.history) <= store.history && Alternates(store.history)
  {
    ghost var before := store.history;
    for n := 0 to commands
      invariant store.Valid() && before <= store.history
    {
      var resume: bool := *;
      if resume {
        var did: Did := *;
        var _ := Resume(store, did);
      } else {
        var receipt: Receipt := *;
        var release: Option<Receipt> := *;
        var selected: set<Did> := *;
        var caps: Capabilities := *;
        var live: bool, maxActions: nat := *, *;
        if Compiled(receipt.policy) && UniqueSubjects(receipt.rows) {
          var _, _ := Execute(store, receipt, live, caps, release, selected, maxActions);
        }
      }
    }
    LawfulAlternates(store.history);
  }

  /** End to end: a mute sent from a receipt was quarantined by ALL the evidence of its preview, at
      write time, and stays so however the incompletely covered evidence is completed. */
  lemma SentMuteIsSound(receipt: Receipt, selected: set<Did>, e: Effect, h: seq<Event>, ev: EvidenceSet, subjects: seq<Did>, previewedAt: Time,
                        later: EvidenceSet)
    requires Compiled(receipt.policy) && Justified(receipt, None, selected, e, h)
    requires receipt.evidence == Receipts.Trim(receipt.policy, ev, subjects, previewedAt) && e.row.subject in subjects
    requires PolicySoundness.Completes(ev, later)
    ensures Evaluate(receipt.policy, ev, e.row.subject, e.at).outcome == Quarantined
    ensures Evaluate(receipt.policy, later, e.row.subject, e.at).outcome == Quarantined
  {
    Receipts.ReceiptReplays(receipt.policy, ev, subjects, previewedAt, e.row.subject, e.at);
    PolicySoundness.ConclusiveVerdictSurvivesCompletion(receipt.policy, ev, later, e.row.subject, e.at);
  }
}
