/** The session store and the refresh of one process in their own form; between any two statements
    the other processes act. */
module OAuthSessions {
  import opened Wrappers
  import opened OAuthCustody

  datatype Refusal = Busy | Indeterminate | Unavailable | PredecessorChanged

  function ActorOf(a: Action): Option<Proc> {
    match a
    case Tick(_) | Reconnect(_, _) | Delete(_) => None
    case Acquire(p, _) => Some(p)
    case SelectIntent(p) => Some(p)
    case SelectSession(p) => Some(p)
    case SelectMatches(p, _) => Some(p)
    case RecordIntent(p) => Some(p)
    case Send(p) => Some(p)
    case Store(p, _) => Some(p)
    case GiveUp(p) => Some(p)
    case Release(p) => Some(p)
    case Crash(p) => Some(p)
    case Peek(p, _) => Some(p)
    case Return(p) => Some(p)
  }

  predicate SamePlace(s: State, t: State, p: Proc) {
    (p in t.procs <==> p in s.procs) && (p in s.procs ==> t.procs[p] == s.procs[p])
  }

  lemma OthersKeepMine(s: State, a: Action, p: Proc)
    requires Enabled(s, a) && ActorOf(a) != Some(p)
    ensures SamePlace(s, Next(s, a), p)
  {
  }

  lemma SentGrows(s: State, a: Action)
    requires Enabled(s, a)
    ensures s.sent <= Next(s, a).sent
  {
  }

  class Custody {
    const me: Proc
    var s: State
    ghost var run: Trace

    ghost predicate Valid()
      reads this
    {
      Reaches(run, s)
    }

    predicate Free()
      reads this
    {
      me !in s.procs
    }

    constructor (me: Proc)
      ensures Valid() && Free() && s == EMPTY && this.me == me
    {
      this.me, s, run := me, EMPTY, START;
      Starts();
    }

    /** One statement or transaction. */
    method Go(a: Action)
      requires Valid() && Enabled(s, a)
      modifies this
      ensures Valid() && s == Next(old(s), a)
      ensures old(run).Valid() && (AllTimely(run) <==> AllTimely(old(run)) && Timely(old(s), a))
    {
      ghost var more, t := Then(run, s, a);
      hide Reaches, AllTimely;
      s, run := Next(s, a), more;
    }

    /** Whatever the other processes do in between. */
    method Others()
      requires Valid()
      modifies this
      ensures Valid() && SamePlace(old(s), s, me) && old(s).sent <= s.sent
    {
      hide Reaches, AllTimely, Next, Enabled;
      var n: int := *;
      while n > 0
        invariant Valid() && SamePlace(old(s), s, me) && old(s).sent <= s.sent
      {
        var a: Action := *;
        if Enabled(s, a) && ActorOf(a) != Some(me) {
          OthersKeepMine(s, a, me);
          SentGrows(s, a);
          Go(a);
        }
        n := n - 1;
      }
    }

    /** The stored session, unless a refresh outcome is open: two statements, not one. */
    method Get(did: Did) returns (r: Result<Option<Token>, Refusal>, ghost sentBefore: nat)
      requires Valid() && Free()
      modifies this
      ensures Valid() && Free() && sentBefore <= |s.sent|
      ensures r.Err? ==> r.error == Indeterminate && did in s.intents
      ensures r.Ok? ==> r.value == if did in s.sessions then Some(s.sessions[did]) else None
      ensures AllTimely(run) && r.Ok? && r.value.Some? ==>
                r.value.value !in s.sent[..sentBefore] && (r.value.value in s.sent ==> did in s.intents)
    {
      hide AllTimely;
      Others();
      sentBefore := |s.sent|;
      var open := did in s.intents;
      Go(Peek(me, did));
      if open { return Err(Indeterminate), sentBefore; }
      Others();
      var stored := if did in s.sessions then Some(s.sessions[did]) else None;
      ghost var read, before := run, s;
      Go(Return(me));
      if AllTimely(run) && did in s.sessions { ReadsReturnUnsentTokens(read, before, me); }
      return Ok(stored), sentBefore;
    }

    /** Replaces the session and closes its intent in one transaction. */
    method Set(did: Did, token: Token) returns (r: Result<(), Refusal>)
      requires Valid() && token !in s.issued
      modifies this
      ensures Valid() && s == SetSession(old(s), did, token)
      ensures r.Ok? <==> !SetRefused(old(s), did)
      ensures r.Ok? ==> did in s.sessions && s.sessions[did] == token && did !in s.intents
      ensures r.Err? ==> r.error == PredecessorChanged && s.sessions == old(s.sessions) && s.intents == old(s.intents)
    {
      var refused := SetRefused(s, did);
      hide Reaches, AllTimely;
      Go(Reconnect(did, token));
      return if refused then Err(PredecessorChanged) else Ok(());
    }

    method Del(did: Did)
      requires Valid()
      modifies this
      ensures Valid() && s.sessions == old(s.sessions) - {did} && s.intents == old(s.intents) - {did}
    {
      hide Reaches, AllTimely;
      Go(Delete(did));
    }

    /** Leaves the lock, whether the refresh went well or not. */
    method Unlock()
      requires Valid() && me in s.procs && s.procs[me].Leaving?
      modifies this
      ensures Valid() && Free()
    {
      hide Reaches, AllTimely;
      Others();
      Go(Release(me));
    }

    method Abandon(e: Refusal) returns (r: Result<Token, Refusal>)
      requires Valid() && me in s.procs && Refreshing(s.procs[me]) && !s.procs[me].Leaving?
      modifies this
      ensures Valid() && Free() && r == Err(e)
    {
      hide Reaches, AllTimely;
      Go(GiveUp(me));
      Unlock();
      return Err(e);
    }

    /** The refresh request: the session of the token, the intent, then the token leaves. */
    method Fetch() returns (r: Result<Token, Refusal>)
      requires Valid() && me in s.procs && s.procs[me].Loaded?
      modifies this
      ensures Valid()
      ensures r.Ok? ==> me in s.procs && s.procs[me].Sent? && s.procs[me].token == r.value == old(s.procs[me].token) &&
                        s.procs[me].did == old(s.procs[me].did) && s.sent != [] && s.sent[|s.sent| - 1] == r.value
      ensures r.Err? ==> Free()
    {
      hide Reaches, AllTimely;
      Others();
      var token, target := s.procs[me].token, s.procs[me].did;
      if !OnlyHolder(s.sessions, target, token) { r := Abandon(Unavailable); return; }
      Go(SelectMatches(me, target));
      Others();
      var taken := target in s.intents;
      Go(RecordIntent(me));
      if taken { Unlock(); return Err(Indeterminate); }
      Others();
      Go(Send(me));
      return Ok(token);
    }

    /** One refresh under the account's lock: read, exchange, store the successor. */
    method Refresh(did: Did) returns (r: Result<Token, Refusal>)
      requires Valid() && Free()
      modifies this
      ensures Valid() && Free()
    {
      hide Reaches, AllTimely;
      Others();
      if did in Unexpired(s.locks, s.clock) { return Err(Busy); }
      Go(Acquire(me, did));
      Others();
      var open := did in s.intents;
      Go(SelectIntent(me));
      if open { Unlock(); return Err(Indeterminate); }
      Others();
      var known := did in s.sessions;
      Go(SelectSession(me));
      if !known { Unlock(); return Err(Unavailable); }
      r := Fetch();
      if r.Err? { return; }
      Others();
      var successor: Token := *;
      if successor in s.issued { r := Abandon(Indeterminate); return; }
      var refused := SetRefused(s, did);
      Go(Store(me, successor));
      Unlock();
      return if refused then Err(PredecessorChanged) else Ok(successor);
    }
  }
}
