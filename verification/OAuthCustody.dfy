/** Custody of single-use refresh tokens (the refresh grant of section 6 of RFC 6749) by several
    processes over one database: session, intent and lock rows, with a crash possible between any
    two statements. A token stands for its own hash. */
module OAuthCustody {
  import opened Wrappers

  type Did = string
  type Time = int
  type Token = nat
  type Proc = nat

  const LEASE: Time := 45

  datatype Lock = Lock(owner: Proc, until: Time)

  /** Where a process stands: inside a refresh under the account's lock, or in a plain read. */
  datatype Phase =
    | Holding(did: Did, until: Time)
    | Cleared(did: Did, until: Time)
    | Loaded(did: Did, until: Time, token: Token)
    | Matched(did: Did, until: Time, token: Token, target: Did)
    | Recorded(did: Did, until: Time, token: Token, target: Did)
    | Sent(did: Did, until: Time, token: Token)
    | Leaving(did: Did, until: Time)
    | Peeking(did: Did, sentBefore: nat)

  datatype State = State(sessions: map<Did, Token>, intents: map<Did, Token>, locks: map<Did, Lock>,
                         procs: map<Proc, Phase>, clock: Time, issued: map<Token, Did>, sent: seq<Token>)

  datatype Action =
    | Tick(passed: nat)
    | Acquire(proc: Proc, did: Did)
    | SelectIntent(proc: Proc)
    | SelectSession(proc: Proc)
    | SelectMatches(proc: Proc, target: Did)
    | RecordIntent(proc: Proc)
    | Send(proc: Proc)
    | Store(proc: Proc, token: Token)
    | GiveUp(proc: Proc)
    | Release(proc: Proc)
    | Crash(proc: Proc)
    | Reconnect(did: Did, token: Token)
    | Delete(did: Did)
    | Peek(proc: Proc, did: Did)
    | Return(proc: Proc)

  function Unexpired(locks: map<Did, Lock>, now: Time): map<Did, Lock> {
    map d | d in locks && locks[d].until > now :: locks[d]
  }

  /** The only session that holds the token. */
  predicate OnlyHolder(sessions: map<Did, Token>, d: Did, t: Token) {
    d in sessions && sessions[d] == t && forall e :: e in sessions && sessions[e] == t ==> e == d
  }

  /** Replacing a session is refused when the recorded intent is not about it. */
  predicate SetRefused(s: State, d: Did) {
    d in s.intents && (d !in s.sessions || s.sessions[d] != s.intents[d])
  }

  predicate Enabled(s: State, a: Action) {
    match a
    case Tick(_) => true
    case Acquire(p, d) => p !in s.procs && d !in Unexpired(s.locks, s.clock)
    case SelectIntent(p) => p in s.procs && s.procs[p].Holding?
    case SelectSession(p) => p in s.procs && s.procs[p].Cleared?
    case SelectMatches(p, d) => p in s.procs && s.procs[p].Loaded? && OnlyHolder(s.sessions, d, s.procs[p].token)
    case RecordIntent(p) => p in s.procs && s.procs[p].Matched?
    case Send(p) => p in s.procs && s.procs[p].Recorded?
    case Store(p, t) => p in s.procs && s.procs[p].Sent? && t !in s.issued
    case GiveUp(p) => p in s.procs && !s.procs[p].Peeking? && !s.procs[p].Leaving?
    case Release(p) => p in s.procs && s.procs[p].Leaving?
    case Crash(p) => p in s.procs
    case Reconnect(_, t) => t !in s.issued
    case Delete(_) => true
    case Peek(p, _) => p !in s.procs
    case Return(p) => p in s.procs && s.procs[p].Peeking?
  }

  function SetSession(s: State, d: Did, t: Token): State {
    s.(sessions := if SetRefused(s, d) then s.sessions else s.sessions[d := t],
       intents := if SetRefused(s, d) then s.intents else s.intents - {d},
       issued := s.issued[t := d])
  }

  function Stand(s: State, p: Proc, phase: Phase): State {
    s.(procs := s.procs[p := phase])
  }

  function Next(s: State, a: Action): State
    requires Enabled(s, a)
  {
    match a
    case Tick(passed) => s.(clock := s.clock + passed)
    case Acquire(p, d) =>
      s.(locks := Unexpired(s.locks, s.clock)[d := Lock(p, s.clock + LEASE)], procs := s.procs[p := Holding(d, s.clock + LEASE)])
    case SelectIntent(p) =>
      var at := s.procs[p];
      Stand(s, p, if at.did in s.intents then Leaving(at.did, at.until) else Cleared(at.did, at.until))
    case SelectSession(p) =>
      var at := s.procs[p];
      Stand(s, p, if at.did in s.sessions then Loaded(at.did, at.until, s.sessions[at.did]) else Leaving(at.did, at.until))
    case SelectMatches(p, d) => Stand(s, p, Matched(s.procs[p].did, s.procs[p].until, s.procs[p].token, d))
    case RecordIntent(p) =>
      var at := s.procs[p];
      var taken := at.target in s.intents;
      s.(intents := if taken then s.intents else s.intents[at.target := at.token],
         procs := s.procs[p := if taken then Leaving(at.did, at.until) else Recorded(at.did, at.until, at.token, at.target)])
    case Send(p) =>
      var at := s.procs[p];
      s.(sent := s.sent + [at.token], procs := s.procs[p := Phase.Sent(at.did, at.until, at.token)])
    case Store(p, t) =>
      var at := s.procs[p];
      Stand(SetSession(s, at.did, t), p, Leaving(at.did, at.until))
    case GiveUp(p) => Stand(s, p, Leaving(s.procs[p].did, s.procs[p].until))
    case Release(p) =>
      var at := s.procs[p];
      s.(locks := if at.did in s.locks && s.locks[at.did].owner == p then s.locks - {at.did} else s.locks, procs := s.procs - {p})
    case Crash(p) => s.(procs := s.procs - {p})
    case Reconnect(d, t) => SetSession(s, d, t)
    case Delete(d) => s.(sessions := s.sessions - {d}, intents := s.intents - {d})
    case Peek(p, d) =>
      s.(procs := if d in s.intents then s.procs else s.procs[p := Peeking(d, |s.sent|)])
    case Return(p) => s.(procs := s.procs - {p})
  }

  const EMPTY := State(map[], map[], map[], map[], 0, map[], [])

  predicate Refreshing(phase: Phase) {
    !phase.Peeking?
  }

  /** A refresh acts only while its lease runs. */
  predicate Timely(s: State, a: Action) {
    match a
    case SelectIntent(p) => p in s.procs && Refreshing(s.procs[p]) && s.clock < s.procs[p].until
    case SelectSession(p) => p in s.procs && Refreshing(s.procs[p]) && s.clock < s.procs[p].until
    case SelectMatches(p, _) => p in s.procs && Refreshing(s.procs[p]) && s.clock < s.procs[p].until
    case RecordIntent(p) => p in s.procs && Refreshing(s.procs[p]) && s.clock < s.procs[p].until
    case Send(p) => p in s.procs && Refreshing(s.procs[p]) && s.clock < s.procs[p].until
    case Store(p, _) => p in s.procs && Refreshing(s.procs[p]) && s.clock < s.procs[p].until
    case _ => true
  }

  /** An action that is not enabled waits. */
  function Step(s: State, a: Action): State {
    if Enabled(s, a) then Next(s, a) else s
  }

  /** A run: the states it passes and the actions between them. */
  datatype Trace = Trace(states: seq<State>, actions: seq<Action>) {
    predicate Valid() {
      |states| == |actions| + 1
    }
  }

  const START := Trace([EMPTY], [])

  predicate Moved(r: Trace, i: nat)
    requires r.Valid() && i < |r.actions|
  {
    r.states[i + 1] == Step(r.states[i], r.actions[i])
  }

  predicate InTime(r: Trace, i: nat)
    requires r.Valid() && i < |r.actions|
  {
    Timely(r.states[i], r.actions[i])
  }

  /** The run starts with nothing stored and ends in s. */
  ghost predicate Reaches(r: Trace, s: State) {
    r.Valid() && r.states[0] == EMPTY && r.states[|r.actions|] == s &&
    forall i {:trigger Moved(r, i)} :: 0 <= i < |r.actions| ==> Moved(r, i)
  }

  ghost predicate AllTimely(r: Trace)
    requires r.Valid()
  {
    forall i {:trigger InTime(r, i)} :: 0 <= i < |r.actions| ==> InTime(r, i)
  }

  // ----- invariants -----

  predicate HasToken(phase: Phase) {
    phase.Loaded? || phase.Matched? || phase.Recorded? || phase.Sent?
  }

  predicate PhaseIssued(s: State, phase: Phase) {
    (HasToken(phase) ==> phase.token in s.issued && s.issued[phase.token] == phase.did) &&
    (phase.Matched? || phase.Recorded? ==> phase.target == phase.did)
  }

  /** Every stored or remembered token was issued to the account it is used for. */
  ghost predicate Issued(s: State) {
    (forall d :: d in s.sessions ==> s.sessions[d] in s.issued && s.issued[s.sessions[d]] == d) &&
    (forall d :: d in s.intents ==> s.intents[d] in s.issued && s.issued[s.intents[d]] == d) &&
    (forall k :: 0 <= k < |s.sent| ==> s.sent[k] in s.issued) &&
    (forall p :: p in s.procs ==> PhaseIssued(s, s.procs[p]))
  }

  predicate Live(s: State, p: Proc) {
    p in s.procs && Refreshing(s.procs[p]) && s.clock < s.procs[p].until
  }

  /** A refresh within its lease holds the account's lock. */
  ghost predicate Locked(s: State) {
    forall p :: Live(s, p) ==> s.procs[p].did in s.locks && s.locks[s.procs[p].did] == Lock(p, s.procs[p].until)
  }

  predicate Current(s: State, t: Token) {
    t in s.issued && s.issued[t] in s.sessions && s.sessions[s.issued[t]] == t
  }

  predicate Covered(s: State, t: Token) {
    Current(s, t) ==> s.issued[t] in s.intents && s.intents[s.issued[t]] == t
  }

  predicate PhaseSafe(s: State, p: Proc)
    requires p in s.procs
  {
    var phase := s.procs[p];
    (phase.Recorded? ==> Covered(s, phase.token)) &&
    (Live(s, p) ==>
       (phase.Cleared? || phase.Loaded? || phase.Matched? ==> phase.did !in s.intents) &&
       (phase.Loaded? || phase.Matched? || phase.Recorded? ==> phase.token !in s.sent))
  }

  /** A token that was sent, or is about to be, is covered by an intent for as long as it is stored. */
  ghost predicate SentOnce(s: State) {
    (forall k :: 0 <= k < |s.sent| ==> Covered(s, s.sent[k])) &&
    (forall k, l :: 0 <= k < l < |s.sent| ==> s.sent[k] != s.sent[l]) &&
    (forall p :: p in s.procs ==> PhaseSafe(s, p))
  }

  predicate PeekSafe(s: State, phase: Phase) {
    phase.Peeking? ==> phase.sentBefore <= |s.sent| && (phase.did in s.sessions ==> s.sessions[phase.did] !in s.sent[..phase.sentBefore])
  }

  ghost predicate Peeks(s: State) {
    forall p :: p in s.procs ==> PeekSafe(s, s.procs[p])
  }

  lemma KeepsIssued(s: State, a: Action)
    requires Issued(s) && Enabled(s, a)
    ensures Issued(Next(s, a))
  {
    var t := Next(s, a);
    forall p | p in t.procs ensures PhaseIssued(t, t.procs[p]) {
      if p in s.procs { assert PhaseIssued(s, s.procs[p]); }
    }
  }

  lemma KeepsLocked(s: State, a: Action)
    requires Locked(s) && Enabled(s, a)
    ensures Locked(Next(s, a))
  {
    var t := Next(s, a);
    forall p | Live(t, p) ensures t.procs[p].did in t.locks && t.locks[t.procs[p].did] == Lock(p, t.procs[p].until) {
      if p in s.procs { assert a.Acquire? || Live(s, p); }
    }
  }

  lemma KeepsPeeks(s: State, a: Action)
    requires Issued(s) && SentOnce(s) && Peeks(s) && Enabled(s, a)
    ensures Peeks(Next(s, a))
  {
    var t := Next(s, a);
    forall p | p in t.procs ensures PeekSafe(t, t.procs[p]) {
      if p in s.procs { assert PeekSafe(s, s.procs[p]); }
    }
  }

  /** Two refreshes within their leases are never about one account. */
  lemma OneRefreshPerAccount(s: State, p: Proc, q: Proc)
    requires Locked(s) && Live(s, p) && Live(s, q) && s.procs[p].did == s.procs[q].did
    ensures p == q
  {
  }

  lemma SendKeepsSentOnce(s: State, p: Proc)
    requires Issued(s) && Locked(s) && SentOnce(s) && Enabled(s, Send(p)) && Timely(s, Send(p))
    ensures SentOnce(Next(s, Send(p)))
  {
    var t := Next(s, Send(p));
    assert PhaseSafe(s, p) && PhaseIssued(s, s.procs[p]);
    forall q | q in t.procs ensures PhaseSafe(t, q) {
      assert PhaseSafe(s, q) && PhaseIssued(s, s.procs[q]);
      if q != p && Live(s, q) && HasToken(s.procs[q]) && s.procs[q].token == s.procs[p].token { OneRefreshPerAccount(s, p, q); }
    }
    assert forall k :: 0 <= k < |s.sent| ==> t.sent[k] == s.sent[k];
  }

  lemma RecordKeepsSentOnce(s: State, p: Proc)
    requires Issued(s) && Locked(s) && SentOnce(s) && Enabled(s, RecordIntent(p)) && Timely(s, RecordIntent(p))
    ensures SentOnce(Next(s, RecordIntent(p)))
  {
    var t := Next(s, RecordIntent(p));
    assert PhaseSafe(s, p) && PhaseIssued(s, s.procs[p]);
    forall q | q in t.procs ensures PhaseSafe(t, q) {
      assert PhaseSafe(s, q) && PhaseIssued(s, s.procs[q]);
      if q != p && Live(s, q) && s.procs[q].did == s.procs[p].did { OneRefreshPerAccount(s, p, q); }
    }
    forall k | 0 <= k < |t.sent| ensures Covered(t, t.sent[k]) { assert Covered(s, s.sent[k]); }
  }

  lemma SetKeepsSentOnce(s: State, d: Did, token: Token)
    requires Issued(s) && SentOnce(s) && token !in s.issued
    ensures SentOnce(SetSession(s, d, token))
  {
    var t := SetSession(s, d, token);
    forall q | q in t.procs ensures PhaseSafe(t, q) { assert PhaseSafe(s, q) && PhaseIssued(s, s.procs[q]); }
    forall k | 0 <= k < |t.sent| ensures Covered(t, t.sent[k]) { assert Covered(s, s.sent[k]); }
  }

  lemma LeaveKeepsSentOnce(s: State, p: Proc, d: Did, until: Time)
    requires SentOnce(s) && p in s.procs
    ensures SentOnce(Stand(s, p, Leaving(d, until)))
  {
    var t := Stand(s, p, Leaving(d, until));
    forall q | q in t.procs ensures PhaseSafe(t, q) { if q != p { assert PhaseSafe(s, q); } }
  }

  lemma OtherKeepsSentOnce(s: State, a: Action)
    requires Issued(s) && Locked(s) && SentOnce(s) && Enabled(s, a)
    requires !a.Send? && !a.RecordIntent? && !a.Store? && !a.Reconnect?
    ensures SentOnce(Next(s, a))
  {
    var t := Next(s, a);
    forall q | q in t.procs ensures PhaseSafe(t, q) { if q in s.procs { assert PhaseSafe(s, q) && PhaseIssued(s, s.procs[q]); } }
    forall k | 0 <= k < |t.sent| ensures Covered(t, t.sent[k]) { assert Covered(s, s.sent[k]); }
  }

  ghost predicate Safe(s: State) {
    Issued(s) && Locked(s) && SentOnce(s) && Peeks(s)
  }

  lemma KeepsSafe(s: State, a: Action)
    requires Safe(s) && Enabled(s, a) && Timely(s, a)
    ensures Safe(Next(s, a))
  {
    hide Issued, Locked, SentOnce, Peeks;
    KeepsIssued(s, a);
    KeepsLocked(s, a);
    KeepsPeeks(s, a);
    match a
    case Send(p) => SendKeepsSentOnce(s, p);
    case RecordIntent(p) => RecordKeepsSentOnce(s, p);
    case Store(p, t) =>
      SetKeepsSentOnce(s, s.procs[p].did, t);
      LeaveKeepsSentOnce(SetSession(s, s.procs[p].did, t), p, s.procs[p].did, s.procs[p].until);
    case Reconnect(d, t) => SetKeepsSentOnce(s, d, t);
    case _ => OtherKeepsSentOnce(s, a);
  }

  lemma {:induction false} AlwaysSafe(r: Trace, n: nat)
    requires r.Valid() && Reaches(r, r.states[|r.actions|]) && AllTimely(r) && n <= |r.actions|
    ensures Safe(r.states[n])
  {
    if n > 0 {
      hide Safe, Timely, Enabled, Next;
      AlwaysSafe(r, n - 1);
      assert Moved(r, n - 1) && InTime(r, n - 1);
      if Enabled(r.states[n - 1], r.actions[n - 1]) { KeepsSafe(r.states[n - 1], r.actions[n - 1]); }
    }
  }

  // ----- the guarantees -----

  /** With every holder finishing within its lease, each refresh token is sent at most once, whatever else
      connects, deletes, crashes or waits. */
  lemma EachTokenIsSentOnce(r: Trace, s: State, k: nat, l: nat)
    requires Reaches(r, s) && AllTimely(r) && k < l < |s.sent|
    ensures s.sent[k] != s.sent[l]
  {
    AlwaysSafe(r, |r.actions|);
  }

  /** A read never returns a token that had been sent when it began; one sent since then is betrayed by an
      intent that was recorded between the read's two statements. */
  lemma ReadsReturnUnsentTokens(r: Trace, s: State, p: Proc)
    requires Reaches(r, s) && AllTimely(r)
    requires p in s.procs && s.procs[p].Peeking? && s.procs[p].did in s.sessions
    ensures var d := s.procs[p].did;
            s.procs[p].sentBefore <= |s.sent| && s.sessions[d] !in s.sent[..s.procs[p].sentBefore] &&
            (s.sessions[d] in s.sent ==> d in s.intents && s.intents[d] == s.sessions[d])
  {
    AlwaysSafe(r, |r.actions|);
    assert PeekSafe(s, s.procs[p]);
    if s.sessions[s.procs[p].did] in s.sent {
      var k :| 0 <= k < |s.sent| && s.sent[k] == s.sessions[s.procs[p].did];
      assert Covered(s, s.sent[k]);
    }
  }

  /** Under the lock a read is exact: the loaded token was never sent. */
  lemma LockedReadsAreUnsent(r: Trace, s: State, p: Proc)
    requires Reaches(r, s) && AllTimely(r)
    requires Live(s, p) && s.procs[p].Loaded?
    ensures s.procs[p].token !in s.sent && s.procs[p].did !in s.intents
  {
    AlwaysSafe(r, |r.actions|);
    assert PhaseSafe(s, p);
  }

  // ----- what an intent is about -----

  function SessionOf(s: State, d: Did): Option<Token> {
    if d in s.sessions then Some(s.sessions[d]) else None
  }

  /** The actions that replace or delete an account's session. */
  predicate Replaces(s: State, a: Action, d: Did) {
    Enabled(s, a) &&
    match a
    case Delete(e) => e == d && d in s.sessions
    case Reconnect(e, _) => e == d && !SetRefused(s, d)
    case Store(p, _) => s.procs[p].did == d && !SetRefused(s, d)
    case _ => false
  }

  predicate ReplacedAt(r: Trace, m: nat, d: Did)
    requires r.Valid() && m < |r.actions|
  {
    Replaces(r.states[m], r.actions[m], d)
  }

  predicate Stands(s: State, p: Proc, d: Did, t: Token) {
    p in s.procs && s.procs[p].Matched? && s.procs[p].target == d && s.procs[p].token == t
  }

  predicate Open(s: State, d: Did, t: Token) {
    d in s.intents && s.intents[d] == t
  }

  /** Process p found d's session by its token t in action i and has not lost it until m. */
  ghost predicate FoundAt(r: Trace, d: Did, t: Token, p: Proc, i: nat, m: nat)
    requires r.Valid()
  {
    i < m <= |r.actions| && r.actions[i] == SelectMatches(p, d) && Enabled(r.states[i], r.actions[i]) && r.states[i].procs[p].token == t &&
    forall k :: i < k <= m ==> Stands(r.states[k], p, d, t)
  }

  /** The intent open at n was recorded in action j for a session found in action i. */
  ghost predicate OpenedAt(r: Trace, d: Did, t: Token, p: Proc, i: nat, j: nat, n: nat)
    requires r.Valid()
  {
    j < n <= |r.actions| && FoundAt(r, d, t, p, i, j) && r.actions[j] == RecordIntent(p) && d !in r.states[j].intents &&
    forall k :: j < k <= n ==> Open(r.states[k], d, t)
  }

  lemma StandsSince(s: State, a: Action, p: Proc, d: Did, t: Token)
    requires Enabled(s, a) && Stands(Next(s, a), p, d, t)
    ensures Stands(s, p, d, t) || (a == SelectMatches(p, d) && s.procs[p].token == t)
  {
  }

  lemma {:induction false} WasFound(r: Trace, d: Did, t: Token, p: Proc, m: nat) returns (i: nat)
    requires r.Valid() && Reaches(r, r.states[|r.actions|]) && m <= |r.actions| && Stands(r.states[m], p, d, t)
    ensures FoundAt(r, d, t, p, i, m)
  {
    hide Next, Enabled, Stands;
    assert m > 0 by { EmptyHasNoIntents(d, p, t); }
    assert Moved(r, m - 1);
    if Stands(r.states[m - 1], p, d, t) {
      i := WasFound(r, d, t, p, m - 1);
    } else {
      assert Enabled(r.states[m - 1], r.actions[m - 1]);
      StandsSince(r.states[m - 1], r.actions[m - 1], p, d, t);
      i := m - 1;
    }
  }

  lemma EmptyHasNoIntents(d: Did, p: Proc, t: Token)
    ensures d !in EMPTY.intents && !Stands(EMPTY, p, d, t)
  {
  }

  lemma OpenSince(s: State, a: Action, d: Did, t: Token)
    requires Enabled(s, a) && Open(Next(s, a), d, t) && !Open(s, d, t)
    ensures a.RecordIntent? && d !in s.intents && Stands(s, a.proc, d, t)
  {
  }

  /** Every open intent was recorded by a process that had found the account's session by its token. */
  lemma {:induction false} IntentsAreRecorded(r: Trace, d: Did, t: Token, n: nat) returns (p: Proc, i: nat, j: nat)
    requires r.Valid() && Reaches(r, r.states[|r.actions|]) && n <= |r.actions| && Open(r.states[n], d, t)
    ensures OpenedAt(r, d, t, p, i, j, n)
  {
    assert n > 0 by { EmptyHasNoIntents(d, 0, t); }
    hide Next, Enabled, Stands;
    assert Moved(r, n - 1);
    if Open(r.states[n - 1], d, t) {
      p, i, j := IntentsAreRecorded(r, d, t, n - 1);
    } else {
      OpenSince(r.states[n - 1], r.actions[n - 1], d, t);
      p, j := r.actions[n - 1].proc, n - 1;
      i := WasFound(r, d, t, p, j);
    }
  }

  lemma {:induction false} AlwaysIssued(r: Trace, n: nat)
    requires r.Valid() && Reaches(r, r.states[|r.actions|]) && n <= |r.actions|
    ensures Issued(r.states[n])
  {
    if n > 0 {
      hide Issued, Enabled, Next;
      AlwaysIssued(r, n - 1);
      assert Moved(r, n - 1);
      if Enabled(r.states[n - 1], r.actions[n - 1]) { KeepsIssued(r.states[n - 1], r.actions[n - 1]); }
    }
  }

  /** A session changes by a replacement only, and never back to a token that was issued before. */
  lemma SessionsMove(s: State, a: Action, d: Did)
    requires Enabled(s, a)
    ensures forall t :: t in s.issued ==> t in Next(s, a).issued
    ensures !Replaces(s, a, d) ==> SessionOf(Next(s, a), d) == SessionOf(s, d)
    ensures Replaces(s, a, d) ==> d !in Next(s, a).intents
    ensures Replaces(s, a, d) && SessionOf(Next(s, a), d).Some? ==> SessionOf(Next(s, a), d).value !in s.issued
  {
  }

  lemma FoundSession(s: State, p: Proc, d: Did)
    requires Issued(s) && Enabled(s, SelectMatches(p, d))
    ensures SessionOf(s, d) == Some(s.procs[p].token) && s.procs[p].token in s.issued && !Replaces(s, SelectMatches(p, d), d)
  {
  }

  /** From the moment the session was found it holds the token exactly until it is replaced. */
  lemma {:induction false} HeldUntilReplaced(r: Trace, d: Did, t: Token, p: Proc, i: nat, m: nat)
    requires r.Valid() && Reaches(r, r.states[|r.actions|]) && FoundAt(r, d, t, p, i, m)
    ensures t in r.states[m].issued
    ensures SessionOf(r.states[m], d) == Some(t) <==> forall k :: i < k < m ==> !ReplacedAt(r, k, d)
  {
    hide Next, Stands, Enabled, Replaces, SessionOf;
    assert Moved(r, m - 1);
    var s, a := r.states[m - 1], r.actions[m - 1];
    if i + 1 < m {
      HeldUntilReplaced(r, d, t, p, i, m - 1);
      assert ReplacedAt(r, m - 1, d) == Replaces(s, a, d);
    } else {
      AlwaysIssued(r, i);
      FoundSession(s, p, d);
    }
    if Enabled(s, a) { SessionsMove(s, a, d); } else { WaitingReplacesNothing(s, a, d); }
  }

  lemma WaitingReplacesNothing(s: State, a: Action, d: Did)
    requires !Enabled(s, a)
    ensures !Replaces(s, a, d)
  {
  }

  /** While its intent stays open a session is not replaced. */
  lemma {:induction false} KeptWhileOpen(r: Trace, d: Did, t: Token, j: nat, n: nat)
    requires r.Valid() && Reaches(r, r.states[|r.actions|]) && j < n <= |r.actions| && r.actions[j].RecordIntent?
    requires forall k :: j < k <= n ==> Open(r.states[k], d, t)
    ensures SessionOf(r.states[n], d) == SessionOf(r.states[j], d)
  {
    hide Next, Enabled, Replaces, SessionOf;
    assert Moved(r, n - 1);
    if j + 1 < n { KeptWhileOpen(r, d, t, j, n - 1); }
    var s, a := r.states[n - 1], r.actions[n - 1];
    if Enabled(s, a) { SessionsMove(s, a, d); } else { WaitingReplacesNothing(s, a, d); }
  }

  /** An intent is about the stored session if and only if nothing replaced or deleted the session between the
      search that found it and the recording. */
  lemma IntentsAreAboutTheSession(r: Trace, s: State, d: Did, t: Token, p: Proc, i: nat, j: nat)
    requires Reaches(r, s) && OpenedAt(r, d, t, p, i, j, |r.actions|)
    ensures d in s.intents && s.intents[d] == t
    ensures SessionOf(s, d) == Some(s.intents[d]) <==> forall k :: i < k < j ==> !ReplacedAt(r, k, d)
  {
    assert Open(r.states[|r.actions|], d, t);
    hide Next, Enabled, Stands, Replaces, SessionOf;
    HeldUntilReplaced(r, d, t, p, i, j);
    KeptWhileOpen(r, d, t, j, |r.actions|);
  }

  /** So for every open intent the run shows its search and its recording, and whether the session was replaced
      in between decides whether they match. */
  lemma EveryIntentIsExplained(r: Trace, s: State, d: Did)
    requires Reaches(r, s) && d in s.intents
    ensures exists p: Proc, i: nat, j: nat ::
              OpenedAt(r, d, s.intents[d], p, i, j, |r.actions|) &&
              (SessionOf(s, d) == Some(s.intents[d]) <==> forall k :: i < k < j ==> !ReplacedAt(r, k, d))
  {
    var p, i, j := IntentsAreRecorded(r, d, s.intents[d], |r.actions|);
    IntentsAreAboutTheSession(r, s, d, s.intents[d], p, i, j);
  }

  lemma RefusedStaysRefused(s: State, a: Action, d: Did)
    requires SetRefused(s, d) && Enabled(s, a) && a != Delete(d)
    ensures SetRefused(Next(s, a), d) && Next(s, a).intents[d] == s.intents[d] && SessionOf(Next(s, a), d) == SessionOf(s, d)
  {
  }

  /** An intent that is not about the session blocks the account for good: whatever else happens, until a deletion
      neither the intent nor the session changes. */
  lemma {:induction false} BlockedUntilDeleted(r: Trace, d: Did, m: nat, n: nat)
    requires r.Valid() && Reaches(r, r.states[|r.actions|]) && m <= n <= |r.actions| && SetRefused(r.states[m], d)
    requires forall k :: m <= k < n ==> r.actions[k] != Delete(d)
    ensures SetRefused(r.states[n], d) && r.states[n].intents[d] == r.states[m].intents[d]
    ensures SessionOf(r.states[n], d) == SessionOf(r.states[m], d)
  {
    if m < n {
      hide Next, Enabled, SetRefused, SessionOf;
      BlockedUntilDeleted(r, d, m, n - 1);
      assert Moved(r, n - 1);
      if Enabled(r.states[n - 1], r.actions[n - 1]) { RefusedStaysRefused(r.states[n - 1], r.actions[n - 1], d); }
    }
  }

  // ----- two runs -----

  lemma Starts()
    ensures Reaches(START, EMPTY) && AllTimely(START)
  {
  }

  lemma Then(r: Trace, s: State, a: Action) returns (more: Trace, t: State)
    requires Reaches(r, s) && Enabled(s, a)
    ensures t == Next(s, a) && more == Trace(r.states + [t], r.actions + [a]) && Reaches(more, t)
    ensures AllTimely(more) <==> AllTimely(r) && Timely(s, a)
  {
    t := Next(s, a);
    more := Trace(r.states + [t], r.actions + [a]);
    hide Next, Enabled, Timely;
    var n := |r.actions|;
    forall i | 0 <= i < |more.actions| ensures Moved(more, i) {
      if i < n { assert Moved(r, i); }
    }
    assert InTime(more, n) == Timely(s, a);
    assert forall i :: 0 <= i < n ==> InTime(more, i) == InTime(r, i);
  }

  /** Process 0 has found the session of the token it loaded. */
  lemma FirstMatches(d: Did) returns (r: Trace, s: State)
    ensures Reaches(r, s) && AllTimely(r)
    ensures s == State(map[d := 0], map[], map[d := Lock(0, LEASE)], map[0 := Matched(d, LEASE, 0, d)], 0, map[0 := d], [])
  {
    hide Reaches, AllTimely;
    Starts();
    r, s := Then(START, EMPTY, Reconnect(d, 0));
    assert s == EMPTY.(sessions := map[d := 0], issued := map[0 := d]);
    r, s := Then(r, s, Acquire(0, d));
    assert Unexpired(map[], 0) == map[];
    r, s := Then(r, s, SelectIntent(0));
    assert s.procs == map[0 := Cleared(d, LEASE)];
    r, s := Then(r, s, SelectSession(0));
    r, s := Then(r, s, SelectMatches(0, d));
    assert s.procs == map[0 := Matched(d, LEASE, 0, d)];
  }

  /** A reconnect between the search and the recording leaves an intent about a token no session holds. */
  lemma ReconnectMakesIntentStale(d: Did) returns (r: Trace, s: State)
    ensures Reaches(r, s) && AllTimely(r)
    ensures d in s.intents && d in s.sessions && s.intents[d] != s.sessions[d]
  {
    r, s := FirstMatches(d);
    hide Reaches, AllTimely;
    r, s := Then(r, s, Reconnect(d, 1));
    r, s := Then(r, s, RecordIntent(0));
  }

  /** The lease of process 0 has run out, and process 1 holds the lock. */
  lemma SecondMatches(d: Did) returns (r: Trace, s: State)
    ensures Reaches(r, s) && s.sessions == map[d := 0] && s.intents == map[] && s.issued == map[0 := d] && s.sent == []
    ensures s.procs == map[0 := Matched(d, LEASE, 0, d), 1 := Matched(d, LEASE + LEASE, 0, d)]
  {
    r, s := FirstMatches(d);
    hide Reaches, AllTimely;
    r, s := Then(r, s, Tick(LEASE));
    assert Unexpired(s.locks, s.clock) == map[];
    r, s := Then(r, s, Acquire(1, d));
    assert s.procs == map[0 := Matched(d, LEASE, 0, d), 1 := Holding(d, LEASE + LEASE)];
    r, s := Then(r, s, SelectIntent(1));
    r, s := Then(r, s, SelectSession(1));
    r, s := Then(r, s, SelectMatches(1, d));
  }

  lemma SecondRefreshes(d: Did) returns (r: Trace, s: State)
    ensures Reaches(r, s) && s.sent == [0] && s.intents == map[] && s.sessions == map[d := 1]
    ensures 0 in s.procs && s.procs[0] == Matched(d, LEASE, 0, d)
  {
    r, s := SecondMatches(d);
    hide Reaches, AllTimely;
    r, s := Then(r, s, RecordIntent(1));
    assert s.intents == map[d := 0];
    r, s := Then(r, s, Send(1));
    r, s := Then(r, s, Store(1, 1));
  }

  /** A holder that outlives its lease sends a token that was sent already. */
  lemma OutlivedLeaseSendsTwice(d: Did) returns (r: Trace, s: State)
    ensures Reaches(r, s) && s.sent == [0, 0]
  {
    r, s := SecondRefreshes(d);
    hide Reaches, AllTimely;
    r, s := Then(r, s, RecordIntent(0));
    r, s := Then(r, s, Send(0));
  }
}
