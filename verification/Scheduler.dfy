/** The bounded, keyed scheduler in front of the policy bridge, with its synchronous re-entrance: a
    call whose lease is refused at once frees its slot and drains the queue from within its start. */
module Scheduler {
  /** Calls run for an account, or for the service itself. */
  datatype Key = Account(did: string) | Internal(name: string)

  datatype Call = Call(id: nat, key: Key)

  /** A start, with the calls it went past and the per-key counts at that moment. */
  datatype Start = Start(call: Call, ahead: seq<Call>, counts: map<Key, nat>)

  datatype Admission = Started | Queued | Rejected

  function Count(counts: map<Key, nat>, key: Key): nat {
    if key in counts then counts[key] else 0
  }

  function Incremented(counts: map<Key, nat>, key: Key): map<Key, nat> {
    counts[key := Count(counts, key) + 1]
  }

  function Decremented(counts: map<Key, nat>, key: Key): map<Key, nat> {
    if Count(counts, key) > 1 then counts[key := counts[key] - 1] else counts - {key}
  }

  function OfKey(calls: seq<Call>, key: Key): seq<Call> {
    if calls == [] then []
    else OfKey(calls[..|calls| - 1], key) + if calls[|calls| - 1].key == key then [calls[|calls| - 1]] else []
  }

  lemma OfKeyAppend(a: seq<Call>, c: Call, key: Key)
    ensures OfKey(a + [c], key) == OfKey(a, key) + if c.key == key then [c] else []
  {
    assert (a + [c])[..|a|] == a;
  }

  lemma {:induction false} OfKeyConcat(a: seq<Call>, b: seq<Call>, key: Key)
    ensures OfKey(a + b, key) == OfKey(a, key) + OfKey(b, key)
  {
    if b == [] {
      assert a + b == a;
    } else {
      var init, last := b[..|b| - 1], b[|b| - 1];
      OfKeyConcat(a, init, key);
      OfKeyAppend(a + init, last, key);
      OfKeyAppend(init, last, key);
      assert a + b == (a + init) + [last] && b == init + [last];
    }
  }

  lemma {:induction false} OfKeyNone(a: seq<Call>, key: Key)
    requires forall i :: 0 <= i < |a| ==> a[i].key != key
    ensures OfKey(a, key) == []
  {
    if a != [] { OfKeyNone(a[..|a| - 1], key); }
  }

  lemma FirstOfKey(before: seq<Call>, c: Call, after: seq<Call>, key: Key)
    requires forall j :: 0 <= j < |before| ==> before[j].key != c.key
    ensures OfKey(before + [c] + after, key) == (if c.key == key then [c] else []) + OfKey(before + after, key)
  {
    OfKeyConcat(before + [c], after, key);
    OfKeyAppend(before, c, key);
    OfKeyConcat(before, after, key);
    if c.key == key { OfKeyNone(before, key); }
    hide OfKey;
  }

  /** Taking a call out of the queue past calls of other keys takes the first of its own key. */
  lemma TakeFirst(queue: seq<Call>, i: nat, key: Key)
    requires i < |queue| && forall j :: 0 <= j < i ==> queue[j].key != queue[i].key
    ensures OfKey(queue, key) ==
            (if queue[i].key == key then [queue[i]] else []) + OfKey(queue[..i] + queue[i + 1..], key)
  {
    FirstOfKey(queue[..i], queue[i], queue[i + 1..], key);
    assert queue[..i] + [queue[i]] + queue[i + 1..] == queue;
  }

  /** Every call a start went past had its own key saturated. */
  predicate Passes(s: Start, perKey: nat) {
    forall j :: 0 <= j < |s.ahead| ==> Count(s.counts, s.ahead[j].key) >= perKey
  }

  /** The counters agree with the slots in use. */
  ghost predicate Matches(active: nat, counts: map<Key, nat>, inUse: multiset<Key>) {
    active == |inUse| && forall k: Key :: Count(counts, k) == inUse[k] && (k in counts ==> counts[k] > 0)
  }

  lemma MatchesUp(active: nat, counts: map<Key, nat>, inUse: multiset<Key>, key: Key)
    requires Matches(active, counts, inUse)
    ensures Matches(active + 1, Incremented(counts, key), inUse + multiset{key})
    ensures forall k: Key :: Count(Incremented(counts, key), k) == Count(counts, k) + if k == key then 1 else 0
  {
  }

  lemma MatchesDown(active: nat, counts: map<Key, nat>, inUse: multiset<Key>, key: Key)
    requires Matches(active, counts, inUse) && key in inUse
    ensures active > 0 && Matches(active - 1, Decremented(counts, key), inUse - multiset{key})
    ensures forall k: Key :: Count(Decremented(counts, key), k) == Count(counts, k) - if k == key then 1 else 0
  {
    assert inUse == (inUse - multiset{key}) + multiset{key};
  }

  lemma Take(active: nat, counts: map<Key, nat>, held: multiset<Key>, lost: multiset<Key>, key: Key)
    requires Matches(active, counts, held + lost)
    ensures Matches(active + 1, Incremented(counts, key), held + multiset{key} + lost)
    ensures forall k: Key :: Count(Incremented(counts, key), k) == Count(counts, k) + if k == key then 1 else 0
  {
    MatchesUp(active, counts, held + lost, key);
    assert held + multiset{key} + lost == (held + lost) + multiset{key};
  }

  lemma Release(active: nat, counts: map<Key, nat>, held: multiset<Key>, lost: multiset<Key>, key: Key)
    requires Matches(active, counts, held + lost) && key in held
    ensures active > 0 && Matches(active - 1, Decremented(counts, key), held - multiset{key} + lost)
    ensures forall k: Key :: Count(Decremented(counts, key), k) == Count(counts, k) - if k == key then 1 else 0
  {
    MatchesDown(active, counts, held + lost, key);
    assert held - multiset{key} + lost == (held + lost) - multiset{key};
  }

  lemma Lose(held: multiset<Key>, lost: multiset<Key>, key: Key)
    requires key in held
    ensures held - multiset{key} + (lost + multiset{key}) == held + lost
  {
  }

  class Engine {
    const global: nat
    const perKey: nat
    const depth: nat
    var active: nat
    var activeByKey: map<Key, nat>
    var queue: seq<Call>
    ghost var held: multiset<Key>
    ghost var lost: multiset<Key>
    ghost var arrived: seq<Call>
    ghost var started: seq<Call>
    ghost var starts: seq<Start>

    predicate Saturated(key: Key)
      reads this
    {
      Count(activeByKey, key) >= perKey
    }

    /** The slots in use are those of the calls in flight and those lost to a failed lease release. */
    ghost predicate Accounted()
      reads this
    {
      Matches(active, activeByKey, held + lost)
    }

    ghost predicate Bounded()
      reads this
    {
      active <= global && |queue| <= depth && forall k: Key :: Count(activeByKey, k) <= perKey
    }

    /** Calls of one key start in the order they arrived. */
    ghost predicate InOrder()
      reads this
    {
      forall k: Key :: OfKey(arrived, k) == OfKey(started, k) + OfKey(queue, k)
    }

    /** Whoever was passed over had its own key saturated. */
    ghost predicate PassedSaturated()
      reads this
    {
      forall i :: 0 <= i < |starts| ==> Passes(starts[i], perKey)
    }

    /** No queued call could run now. */
    ghost predicate Settled()
      reads this
    {
      active >= global || forall i :: 0 <= i < |queue| ==> Saturated(queue[i].key)
    }

    ghost predicate Inv()
      reads this
    {
      0 < perKey && Accounted() && Bounded() && InOrder() && PassedSaturated()
    }

    ghost predicate Valid()
      reads this
    {
      Inv() && Settled()
    }

    constructor (global: nat, perKey: nat, depth: nat)
      requires 0 < perKey
      ensures Valid() && queue == [] && arrived == [] && started == [] && held == lost == multiset{}
    {
      this.global, this.perKey, this.depth := global, perKey, depth;
      active, activeByKey, queue := 0, map[], [];
      held, lost, arrived, started, starts := multiset{}, multiset{}, [], [], [];
    }

    /** In arrival order a call comes between what has started and what is queued. */
    ghost predicate NextInOrder(call: Call)
      reads this
    {
      forall k: Key :: OfKey(arrived, k) == OfKey(started, k) + (if call.key == k then [call] else []) + OfKey(queue, k)
    }

    /** Records that the call starts now, and whom it goes past. */
    ghost method NoteStart(call: Call, ahead: seq<Call>)
      requires PassedSaturated() && NextInOrder(call)
      requires forall j :: 0 <= j < |ahead| ==> Saturated(ahead[j].key)
      modifies this`starts, this`started
      ensures PassedSaturated() && InOrder() && started == old(started) + [call]
      ensures starts == old(starts) + [Start(call, ahead, activeByKey)]
    {
      StartsInOrder(call);
      assert Passes(Start(call, ahead, activeByKey), perKey);
      hide OfKey, Count, Passes;
      starts := starts + [Start(call, ahead, activeByKey)];
      started := started + [call];
    }

    /** The synchronous head of a start. */
    method TakeSlot(call: Call, ghost ahead: seq<Call>)
      requires 0 < perKey && Accounted() && Bounded() && PassedSaturated() && NextInOrder(call)
      requires active < global && !Saturated(call.key)
      requires forall j :: 0 <= j < |ahead| ==> Saturated(ahead[j].key)
      modifies this
      ensures Inv() && arrived == old(arrived) && lost == old(lost) && queue == old(queue)
      ensures started == old(started) + [call] && held == old(held) + multiset{call.key}
      ensures active == old(active) + 1 && activeByKey == Incremented(old(activeByKey), call.key)
      ensures starts == old(starts) + [Start(call, ahead, old(activeByKey))]
    {
      NoteStart(call, ahead);
      hide OfKey, Matches, Count, Incremented;
      Take(active, activeByKey, held, lost, call.key);
      active, activeByKey, held := active + 1, Incremented(activeByKey, call.key), held + multiset{call.key};
    }

    /** The bookkeeping at the end of a call. */
    method FreeSlot(key: Key)
      requires Inv() && key in held
      modifies this`active, this`activeByKey, this`held
      ensures Inv() && held == old(held) - multiset{key} && active == old(active) - 1
      ensures activeByKey == Decremented(old(activeByKey), key)
    {
      Release(active, activeByKey, held, lost, key);
      hide OfKey, Matches, Count, Decremented;
      active, activeByKey, held := active - 1, Decremented(activeByKey, key), held - multiset{key};
    }

    /** Takes a slot and asks for a lease; a refused lease gives the slot back and drains at once. */
    method StartCall(call: Call, ghost ahead: seq<Call>) returns (running: bool)
      requires 0 < perKey && Accounted() && Bounded() && PassedSaturated() && NextInOrder(call)
      requires active < global && !Saturated(call.key)
      requires forall j :: 0 <= j < |ahead| ==> Saturated(ahead[j].key)
      modifies this
      ensures Inv() && arrived == old(arrived) && lost == old(lost) && |queue| <= old(|queue|)
      ensures old(started) + [call] <= started
      ensures running ==>
                queue == old(queue) && started == old(started) + [call] && held == old(held) + multiset{call.key} &&
                active == old(active) + 1 && activeByKey == Incremented(old(activeByKey), call.key)
      ensures !running ==> call.key.Account? && Settled()
      decreases |queue|, 1
    {
      hide Inv, Settled, Accounted, Bounded, InOrder, PassedSaturated, NextInOrder, Saturated, Incremented, Decremented;
      TakeSlot(call, ahead);
      var refused: bool := *;
      if call.key.Account? && refused {
        FreeSlot(call.key);
        Drain();
        return false;
      }
      return true;
    }

    lemma StartsInOrder(call: Call)
      requires NextInOrder(call)
      ensures forall k: Key :: OfKey(arrived, k) == OfKey(started + [call], k) + OfKey(queue, k)
    {
      forall k: Key ensures OfKey(arrived, k) == OfKey(started + [call], k) + OfKey(queue, k) {
        OfKeyAppend(started, call, k);
      }
    }

    /** Starts every queued call that can run, in order. */
    method Drain()
      requires Inv()
      modifies this
      ensures Inv() && Settled() && arrived == old(arrived) && lost == old(lost) && |queue| <= old(|queue|)
      ensures old(started) <= started
      decreases |queue|, 0
    {
      var index := 0;
      while index < |queue| && active < global
        invariant Inv() && arrived == old(arrived) && lost == old(lost) && |queue| <= old(|queue|) && old(started) <= started
        invariant active >= global || forall j :: 0 <= j < index && j < |queue| ==> Saturated(queue[j].key)
        decreases |queue| - index
      {
        var queued := queue[index];
        if Saturated(queued.key) {
          index := index + 1;
        } else {
          ghost var ahead := queue[..index];
          ghost var before := queue;
          forall k: Key ensures OfKey(before, k) ==
            (if queued.key == k then [queued] else []) + OfKey(before[..index] + before[index + 1..], k) { TakeFirst(before, index, k); }
          queue := queue[..index] + queue[index + 1..];
          var running := StartCall(queued, ahead);
        }
      }
    }

    /** A new call starts at once when it may, waits while there is room, and is turned away otherwise. */
    method Schedule(call: Call) returns (a: Admission)
      requires Valid()
      modifies this
      ensures Valid() && lost == old(lost)
      ensures a.Started? <==> old(active) < global && !old(Saturated(call.key))
      ensures a.Rejected? <==> !a.Started? && old(|queue|) >= depth
      ensures arrived == if a.Rejected? then old(arrived) else old(arrived) + [call]
      ensures a.Queued? ==> queue == old(queue) + [call] && started == old(started) && held == old(held)
      ensures a.Started? ==> old(started) + [call] <= started
      ensures a.Rejected? ==> queue == old(queue) && started == old(started) && held == old(held)
    {
      if active < global && !Saturated(call.key) {
        ghost var before := arrived;
        forall k: Key ensures OfKey(before + [call], k) == OfKey(started, k) + (if call.key == k then [call] else []) + OfKey(queue, k) {
          OfKeyAppend(before, call, k);
          if k == call.key { OfKeyNone(queue, k); }
        }
        arrived := arrived + [call];
        var running := StartCall(call, queue);
        return Started;
      }
      if |queue| >= depth { return Rejected; }
      forall k: Key ensures OfKey(arrived + [call], k) == OfKey(started, k) + OfKey(queue + [call], k) {
        OfKeyAppend(arrived, call, k);
        OfKeyAppend(queue, call, k);
      }
      arrived, queue := arrived + [call], queue + [call];
      return Queued;
    }

    /** A call in flight ends. Should giving back its lease fail, its slot is never freed. */
    method Complete(key: Key, leaseFails: bool)
      requires Valid() && key in held
      modifies this
      ensures Valid() && arrived == old(arrived) && old(started) <= started && |queue| <= old(|queue|)
      ensures lost == if key.Account? && leaseFails then old(lost) + multiset{key} else old(lost)
      ensures key.Account? && leaseFails ==> active == old(active) && queue == old(queue) && held == old(held) - multiset{key}
    {
      hide OfKey, Matches, Count;
      if key.Account? && leaseFails {
        Lose(held, lost, key);
        held, lost := held - multiset{key}, lost + multiset{key};
        return;
      }
      FreeSlot(key);
      Drain();
    }
  }
}
