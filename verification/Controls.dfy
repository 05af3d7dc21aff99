/** Capacity shared by the service's processes: sliding-window limits on effects, and the leases that
    bound running bridge calls and acquisitions. Each method body between two clock readings is one
    transaction on the table of capacity events. */
module Controls {
  import opened Wrappers
  import opened Sets
  import opened Policy

  type Token = nat

  datatype EventKind = Effect | Bridge | Acquisition

  datatype EventStatus = Attempting | Confirmed | Uncertain | Refused | Running | Waiting | Completed | Expired

  datatype CapacityEvent = CapacityEvent(did: Did, kind: EventKind, status: EventStatus, createdAt: Time)

  type Table = map<Token, CapacityEvent>

  datatype Config = Config(effectsGlobalDay: nat, effectsPerDidDay: nat, bridgeGlobal: nat, bridgePerDid: nat,
                           acquisitionGlobal: nat, acquisitionPerDid: nat, acquisitionQueue: nat,
                           startsGlobalHour: nat, startsPerDidHour: nat, maxWait: nat)

  datatype Flags = Flags(maintenance: bool, admissions: bool, writes: bool, accounts: set<Did>)

  datatype Refusal = WritesClosed | AdmissionsClosed | AtCapacity

  const SECOND := 1000
  const HOUR := 3600 * SECOND
  const DAY := 24 * HOUR
  const LEASE := 15 * 60 * SECOND

  // ----- what is counted -----

  predicate Counts(e: CapacityEvent, since: Time) {
    e.kind == Effect && e.status != Refused && e.createdAt >= since
  }

  /** Reservations that still count, made since a time. */
  function Reservations(t: Table, since: Time): set<Token> {
    set k | k in t && Counts(t[k], since)
  }

  function InStatus(t: Table, kind: EventKind, status: EventStatus): set<Token> {
    set k | k in t && t[k].kind == kind && t[k].status == status
  }

  function OwnedBy(t: Table, tokens: set<Token>, did: Did): set<Token> {
    set k | k in tokens && k in t && t[k].did == did
  }

  /** Reservations within one closed day. */
  function Window(t: Table, from: Time): set<Token> {
    set k | k in t && Counts(t[k], from) && t[k].createdAt <= from + DAY
  }

  /** Counting reservations made earlier, within a day of the given one. */
  function Prior(t: Table, m: Token): set<Token>
    requires m in t
  {
    set k | k in t && k < m && Counts(t[k], t[m].createdAt - DAY)
  }

  /** When the reservation was granted there was still room. */
  predicate HadRoom(t: Table, m: Token, c: Config)
    requires m in t
  {
    |Prior(t, m)| < c.effectsGlobalDay && |OwnedBy(t, Prior(t, m), t[m].did)| < c.effectsPerDidDay
  }

  ghost predicate Spaced(t: Table, c: Config) {
    forall m :: m in t && t[m].kind == Effect && t[m].status != Refused ==> HadRoom(t, m, c)
  }

  predicate RunningWithin(t: Table, kind: EventKind, global: nat, own: nat) {
    |InStatus(t, kind, Running)| <= global &&
    forall k :: k in t ==> |OwnedBy(t, InStatus(t, kind, Running), t[k].did)| <= own
  }

  ghost predicate Within(t: Table, c: Config) {
    Spaced(t, c) &&
    RunningWithin(t, Bridge, c.bridgeGlobal, c.bridgePerDid) &&
    RunningWithin(t, Acquisition, c.acquisitionGlobal, c.acquisitionPerDid) &&
    |InStatus(t, Acquisition, Waiting)| <= c.acquisitionQueue
  }

  // ----- sets of tokens -----

  lemma {:induction false} Latest(s: set<Token>) returns (m: Token)
    requires s != {}
    ensures m in s && forall k :: k in s ==> k <= m
    decreases |s|
  {
    var x :| x in s;
    if s == {x} {
      m := x;
    } else {
      assert s - {x} != {};
      var y := Latest(s - {x});
      m := if x < y then y else x;
      assert forall k :: k in s ==> k == x || k in s - {x};
    }
  }

  /** The latest reservation of a day sees all the others of that day. */
  lemma LatestSeesDay(t: Table, from: Time, k: Token, m: Token)
    requires k in Window(t, from) && m in Window(t, from) && k < m
    ensures k in Prior(t, m)
  {
  }

  lemma DayIsWithinGlobalLimit(t: Table, c: Config, from: Time)
    requires Spaced(t, c)
    ensures |Window(t, from)| <= c.effectsGlobalDay
  {
    var day := Window(t, from);
    if day != {} {
      var m := Latest(day);
      assert HadRoom(t, m, c);
      forall k | k in day - {m} ensures k in Prior(t, m) { LatestSeesDay(t, from, k, m); }
      hide Window, Prior;
      SubsetIsSmaller(day - {m}, Prior(t, m));
    }
  }

  lemma DayIsWithinOwnLimit(t: Table, c: Config, from: Time, did: Did)
    requires Spaced(t, c)
    ensures |OwnedBy(t, Window(t, from), did)| <= c.effectsPerDidDay
  {
    var own := OwnedBy(t, Window(t, from), did);
    if own != {} {
      var m := Latest(own);
      assert HadRoom(t, m, c);
      forall k | k in own - {m} ensures k in OwnedBy(t, Prior(t, m), t[m].did) { LatestSeesDay(t, from, k, m); }
      hide Window, Prior;
      SubsetIsSmaller(own - {m}, OwnedBy(t, Prior(t, m), t[m].did));
    }
  }

  /** In any closed day, however it is placed, no more reservations count than the limits allow. */
  lemma EveryDayIsWithinLimits(t: Table, c: Config, from: Time, did: Did)
    requires Spaced(t, c)
    ensures |Window(t, from)| <= c.effectsGlobalDay
    ensures |OwnedBy(t, Window(t, from), did)| <= c.effectsPerDidDay
  {
    DayIsWithinGlobalLimit(t, c, from);
    DayIsWithinOwnLimit(t, c, from, did);
  }

  // ----- what a transaction may do -----

  predicate Wanes(e: CapacityEvent, f: CapacityEvent) {
    f == e.(status := f.status) &&
    (e.kind == Effect && e.status == Refused ==> f.status == Refused) &&
    (f.status == Running ==> e.status == Running) &&
    (f.status == Waiting ==> e.status == Waiting)
  }

  /** Rows disappear, or move to a status that counts for no more. */
  ghost predicate Shrinks(t: Table, u: Table) {
    forall k :: k in u ==> k in t && Wanes(t[k], u[k])
  }

  lemma ShrinkingKeepsRunning(t: Table, u: Table, kind: EventKind, global: nat, own: nat)
    requires Shrinks(t, u) && RunningWithin(t, kind, global, own)
    ensures RunningWithin(u, kind, global, own)
  {
    SubsetIsSmaller(InStatus(u, kind, Running), InStatus(t, kind, Running));
    forall k | k in u ensures |OwnedBy(u, InStatus(u, kind, Running), u[k].did)| <= own {
      SubsetIsSmaller(OwnedBy(u, InStatus(u, kind, Running), u[k].did), OwnedBy(t, InStatus(t, kind, Running), t[k].did));
    }
  }

  /** Expiring, finishing, refusing and deleting never break a limit. */
  lemma ShrinkingKeepsLimits(t: Table, u: Table, c: Config)
    requires Shrinks(t, u) && Within(t, c)
    ensures Within(u, c)
  {
    forall m | m in u && u[m].kind == Effect && u[m].status != Refused ensures HadRoom(u, m, c) {
      assert HadRoom(t, m, c);
      SubsetIsSmaller(Prior(u, m), Prior(t, m));
      SubsetIsSmaller(OwnedBy(u, Prior(u, m), u[m].did), OwnedBy(t, Prior(t, m), t[m].did));
    }
    ShrinkingKeepsRunning(t, u, Bridge, c.bridgeGlobal, c.bridgePerDid);
    ShrinkingKeepsRunning(t, u, Acquisition, c.acquisitionGlobal, c.acquisitionPerDid);
    SubsetIsSmaller(InStatus(u, Acquisition, Waiting), InStatus(t, Acquisition, Waiting));
  }

  predicate Numbered(t: Table, next: Token) {
    forall k :: k in t ==> k < next
  }

  predicate RoomToReserve(t: Table, c: Config, did: Did, now: Time) {
    |Reservations(t, now - DAY)| < c.effectsGlobalDay && |OwnedBy(t, Reservations(t, now - DAY), did)| < c.effectsPerDidDay
  }

  predicate RoomToRun(t: Table, kind: EventKind, did: Did, global: nat, own: nat) {
    |InStatus(t, kind, Running)| < global && |OwnedBy(t, InStatus(t, kind, Running), did)| < own
  }

  lemma ReservingKeepsSpaced(t: Table, next: Token, c: Config, did: Did, counted: Time, at: Time)
    requires Numbered(t, next) && Spaced(t, c) && RoomToReserve(t, c, did, counted) && counted <= at
    ensures Spaced(t[next := CapacityEvent(did, Effect, Attempting, at)], c)
  {
    var u := t[next := CapacityEvent(did, Effect, Attempting, at)];
    forall m | m in u && u[m].kind == Effect && u[m].status != Refused ensures HadRoom(u, m, c) {
      if m == next {
        SubsetIsSmaller(Prior(u, m), Reservations(t, counted - DAY));
        SubsetIsSmaller(OwnedBy(u, Prior(u, m), did), OwnedBy(t, Reservations(t, counted - DAY), did));
      } else {
        assert HadRoom(t, m, c);
        assert Prior(u, m) == Prior(t, m);
        assert OwnedBy(u, Prior(u, m), u[m].did) == OwnedBy(t, Prior(t, m), t[m].did);
      }
    }
  }

  /** A row of another kind or status changes no running count. */
  lemma OtherRowKeepsRunning(t: Table, u: Table, k: Token, kind: EventKind, global: nat, own: nat)
    requires RunningWithin(t, kind, global, own) && k in u && u == t[k := u[k]]
    requires !(u[k].kind == kind && u[k].status == Running) && !(k in t && t[k].kind == kind && t[k].status == Running)
    ensures RunningWithin(u, kind, global, own)
  {
    assert InStatus(u, kind, Running) == InStatus(t, kind, Running);
    forall i | i in u ensures |OwnedBy(u, InStatus(u, kind, Running), u[i].did)| <= own {
      assert OwnedBy(u, InStatus(u, kind, Running), u[i].did) == OwnedBy(t, InStatus(t, kind, Running), u[i].did);
      if OwnedBy(t, InStatus(t, kind, Running), u[i].did) != {} {
        var x :| x in OwnedBy(t, InStatus(t, kind, Running), u[i].did);
        assert t[x].did == u[i].did;
      }
    }
  }

  /** A lease that starts when there is room keeps the running counts within their limits. */
  lemma RunningOneMore(t: Table, u: Table, k: Token, kind: EventKind, global: nat, own: nat)
    requires RunningWithin(t, kind, global, own) && k in u && u == t[k := u[k]]
    requires u[k].kind == kind && u[k].status == Running && RoomToRun(t, kind, u[k].did, global, own)
    requires k in t ==> t[k].kind == kind && t[k].status != Running && t[k].did == u[k].did
    ensures RunningWithin(u, kind, global, own)
  {
    assert InStatus(u, kind, Running) == InStatus(t, kind, Running) + {k};
    forall i | i in u ensures |OwnedBy(u, InStatus(u, kind, Running), u[i].did)| <= own {
      var before := OwnedBy(t, InStatus(t, kind, Running), u[i].did);
      if u[i].did == u[k].did {
        assert OwnedBy(u, InStatus(u, kind, Running), u[i].did) == before + {k};
      } else {
        assert OwnedBy(u, InStatus(u, kind, Running), u[i].did) == before;
        if before != {} {
          var x :| x in before;
          assert t[x].did == u[i].did;
        }
      }
    }
  }

  /** Bridge and acquisition rows do not bear on reservations. */
  lemma OtherRowKeepsSpaced(t: Table, u: Table, k: Token, c: Config)
    requires Spaced(t, c) && k in u && u == t[k := u[k]] && u[k].kind != Effect && (k in t ==> t[k].kind != Effect)
    ensures Spaced(u, c)
  {
    forall m | m in u && u[m].kind == Effect && u[m].status != Refused ensures HadRoom(u, m, c) {
      assert HadRoom(t, m, c);
      assert Prior(u, m) == Prior(t, m);
      assert OwnedBy(u, Prior(u, m), u[m].did) == OwnedBy(t, Prior(t, m), t[m].did);
    }
  }

  // ----- the service -----

  /** Running leases of a kind that started before a time are given up. */
  function ExpireLeases(t: Table, kind: EventKind, before: Time): Table {
    map k | k in t ::
      if t[k].kind == kind && t[k].status == Running && t[k].createdAt < before then t[k].(status := Expired) else t[k]
  }

  function DropLeases(t: Table, before: Time): Table {
    map k | k in t && !(t[k].kind == Acquisition && t[k].status == Running && t[k].createdAt < before) :: t[k]
  }

  function WithStatus(t: Table, k: Token, kind: EventKind, status: EventStatus): Table {
    if k in t && t[k].kind == kind then t[k := t[k].(status := status)] else t
  }

  function Starts(t: Table, since: Time): set<Token> {
    set k | k in t && t[k].kind == Acquisition && t[k].createdAt >= since
  }

  /** An account whose earlier work is still running may finish it under maintenance. */
  predicate Draining(t: Table, did: Did) {
    exists k :: k in t && t[k].did == did && (t[k].kind == Acquisition || t[k].kind == Effect) &&
                (t[k].status == Running || t[k].status == Attempting)
  }

  class ServiceControls {
    const config: Config
    var flags: Flags
    var events: Table
    var next: Token
    var clock: Time

    predicate Valid()
      reads this
    {
      Numbered(events, next)
    }

    ghost predicate Limited()
      reads this
    {
      Within(events, config)
    }

    predicate WritesOpen(did: Did)
      reads this
    {
      !flags.maintenance && flags.writes && did in flags.accounts
    }

    predicate AdmissionsOpen()
      reads this
    {
      !flags.maintenance && flags.admissions
    }

    constructor (config: Config, flags: Flags, clock: Time)
      ensures Valid() && Limited() && events == map[]
    {
      this.config, this.flags, this.clock, events, next := config, flags, clock, map[], 0;
    }

    method Now() returns (t: Time)
      modifies this`clock
      ensures old(clock) <= t == clock
    {
      var passed: int := *;
      if passed > 0 { clock := clock + passed; }
      t := clock;
    }

    /** A reservation for one effect, granted while both sliding windows have room. */
    method ReserveEffect(did: Did) returns (r: Result<Token, Refusal>, ghost counted: Time)
      requires Valid()
      modifies this`events, this`next, this`clock
      ensures Valid() && old(clock) <= counted <= clock && (old(Limited()) ==> Limited())
      ensures r.Ok? <==> WritesOpen(did) && RoomToReserve(old(events), config, did, counted)
      ensures r.Ok? ==> r.value == old(next) && next == old(next) + 1 &&
                        events == old(events)[r.value := CapacityEvent(did, Effect, Attempting, clock)]
      ensures r.Err? ==> events == old(events) && next == old(next) && (r.error == WritesClosed <==> !WritesOpen(did))
    {
      counted := clock;
      if !WritesOpen(did) { return Err(WritesClosed), counted; }
      var now := Now();
      counted := now;
      if !RoomToReserve(events, config, did, now) { return Err(AtCapacity), counted; }
      var at := Now();
      ReserveKeepsLimits(events, next, config, did, now, at);
      events := events[next := CapacityEvent(did, Effect, Attempting, at)];
      r := Ok(next);
      next := next + 1;
    }

    /** Records how a reserved effect ended. Only a refused reservation brought back could break a limit. */
    method FinishEffect(effect: Token, status: EventStatus)
      requires Valid() && (status == Confirmed || status == Uncertain || status == Refused)
      modifies this`events
      ensures Valid() && events == WithStatus(old(events), effect, Effect, status)
      ensures old(Limited()) && !(effect in old(events) && old(events)[effect].status == Refused && status != Refused) ==> Limited()
    {
      ghost var before := events;
      events := WithStatus(events, effect, Effect, status);
      if Within(before, config) && !(effect in before && before[effect].status == Refused && status != Refused) {
        ShrinkingKeepsLimits(before, events, config);
      }
    }

    /** A lease for one bridge call. A refusal rolls the expiry back. */
    method Begin(did: Did) returns (r: Result<Token, Refusal>, ghost now: Time)
      requires Valid()
      modifies this`events, this`next, this`clock
      ensures Valid() && old(clock) <= now <= clock && (old(Limited()) ==> Limited())
      ensures var live := ExpireLeases(old(events), Bridge, now - LEASE);
              (r.Ok? <==> (flags.maintenance ==> Draining(old(events), did)) &&
                          RoomToRun(live, Bridge, did, config.bridgeGlobal, config.bridgePerDid)) &&
              (r.Ok? ==> r.value == old(next) && next == old(next) + 1 &&
                         events == live[r.value := CapacityEvent(did, Bridge, Running, clock)])
      ensures r.Err? ==> events == old(events) && next == old(next)
    {
      now := clock;
      if flags.maintenance && !Draining(events, did) { return Err(AtCapacity), now; }
      var at := Now();
      now := at;
      var live := ExpireLeases(events, Bridge, at - LEASE);
      if !RoomToRun(live, Bridge, did, config.bridgeGlobal, config.bridgePerDid) { return Err(AtCapacity), now; }
      var started := Now();
      var row := CapacityEvent(did, Bridge, Running, started);
      if Within(events, config) {
        ShrinkingKeepsLimits(events, live, config);
        BridgeKeepsLimits(live, next, config, row);
      }
      events := live[next := row];
      r := Ok(next);
      next := next + 1;
    }

    method Finish(token: Token)
      requires Valid()
      modifies this`events
      ensures Valid() && events == WithStatus(old(events), token, Bridge, Completed) && (old(Limited()) ==> Limited())
    {
      ghost var before := events;
      events := WithStatus(events, token, Bridge, Completed);
      if Within(before, config) { ShrinkingKeepsLimits(before, events, config); }
    }

    /** The first transaction of an acquisition: a running lease, or a place in the queue. */
    method StartAcquisition(did: Did) returns (r: Result<Token, Refusal>, running: bool, ghost now: Time)
      requires Valid()
      modifies this`events, this`next, this`clock
      ensures Valid() && old(clock) <= now <= clock && (old(Limited()) ==> Limited())
      ensures var live := DropLeases(old(events), now - config.maxWait * SECOND - LEASE);
              (r.Ok? ==>
                 running == RoomToRun(live, Acquisition, did, config.acquisitionGlobal, config.acquisitionPerDid) &&
                 (running || |InStatus(live, Acquisition, Waiting)| < config.acquisitionQueue) &&
                 r.value == old(next) && next == old(next) + 1 &&
                 events == live[r.value := CapacityEvent(did, Acquisition, if running then Running else Waiting, clock)])
      ensures r.Err? ==> r.error == AtCapacity && events == old(events) && next == old(next)
    {
      running := false;
      var at := Now();
      now := at;
      var live := DropLeases(events, at - config.maxWait * SECOND - LEASE);
      var started := Starts(live, at - HOUR);
      if |started| >= config.startsGlobalHour || |OwnedBy(live, started, did)| >= config.startsPerDidHour {
        return Err(AtCapacity), false, now;
      }
      running := RoomToRun(live, Acquisition, did, config.acquisitionGlobal, config.acquisitionPerDid);
      if !running && |InStatus(live, Acquisition, Waiting)| >= config.acquisitionQueue { return Err(AtCapacity), running, now; }
      var created := Now();
      var row := CapacityEvent(did, Acquisition, if running then Running else Waiting, created);
      if Within(events, config) {
        ShrinkingKeepsLimits(events, live, config);
        AcquisitionKeepsLimits(live, next, config, row);
      }
      events := live[next := row];
      r := Ok(next);
      next := next + 1;
    }

    /** A waiting acquisition of the caller takes a free place. */
    method ClaimAcquisition(did: Did, lease: Token) returns (claimed: bool)
      requires Valid()
      modifies this`events
      ensures Valid() && (old(Limited()) ==> Limited())
      ensures claimed <==> lease in old(events) && old(events)[lease].kind == Acquisition && old(events)[lease].status == Waiting &&
                           old(events)[lease].did == did &&
                           RoomToRun(old(events), Acquisition, did, config.acquisitionGlobal, config.acquisitionPerDid)
      ensures events == if claimed then WithStatus(old(events), lease, Acquisition, Running) else old(events)
    {
      claimed := lease in events && events[lease] == CapacityEvent(did, Acquisition, Waiting, events[lease].createdAt) &&
                 RoomToRun(events, Acquisition, did, config.acquisitionGlobal, config.acquisitionPerDid);
      if claimed {
        if Within(events, config) { ClaimKeepsLimits(events, lease, config); }
        events := WithStatus(events, lease, Acquisition, Running);
      }
    }

    method ExpireWaiting(lease: Token)
      requires Valid()
      modifies this`events
      ensures Valid() && (old(Limited()) ==> Limited())
      ensures events == if lease in old(events) && old(events)[lease].status == Waiting
                        then old(events)[lease := old(events)[lease].(status := Expired)] else old(events)
    {
      ghost var before := events;
      if lease in events && events[lease].status == Waiting {
        events := events[lease := events[lease].(status := Expired)];
      }
      if Within(before, config) { ShrinkingKeepsLimits(before, events, config); }
    }

    method FinishAcquisition(lease: Token)
      requires Valid()
      modifies this`events
      ensures Valid() && events == WithStatus(old(events), lease, Acquisition, Completed) && (old(Limited()) ==> Limited())
    {
      ghost var before := events;
      events := WithStatus(events, lease, Acquisition, Completed);
      if Within(before, config) { ShrinkingKeepsLimits(before, events, config); }
    }

    /** What the other processes do during a pause of at least a quarter of a second. */
    method Pause()
      requires Valid()
      modifies this
      ensures Valid() && clock >= old(clock) + 250 && (old(Limited()) ==> Limited())
    {
      clock := clock + 250;
      flags := *;
      var n: int := *;
      while n > 0
        invariant Valid() && clock >= old(clock) + 250 && (old(Limited()) ==> Limited())
      {
        var op: int, did: Did, token: Token := *, *, *;
        if op == 0 { var r, _ := ReserveEffect(did); }
        else if op == 1 { var r, _ := Begin(did); }
        else if op == 2 { Finish(token); }
        else if op == 3 { var r, _, _ := StartAcquisition(did); }
        else if op == 4 { var claimed := ClaimAcquisition(did, token); }
        else if op == 5 { ExpireWaiting(token); }
        else if op == 6 { FinishAcquisition(token); }
        else if op == 7 { Erase(did); }
        else if token in events && events[token].status != Refused { FinishEffect(token, if op > 8 then Confirmed else Uncertain); }
        else { FinishEffect(token, Refused); }
        n := n - 1;
      }
    }

    /** Waits, polling, for a place to run; the waiting row never outlives the wait. */
    method BeginAcquisition(did: Did) returns (r: Result<Token, Refusal>)
      requires Valid()
      modifies this
      ensures Valid() && (old(Limited()) ==> Limited())
      ensures r.Ok? ==> r.value in events && events[r.value].kind == Acquisition && events[r.value].status == Running &&
                        events[r.value].did == did
      ensures r.Err? && r.error == AdmissionsClosed ==> !AdmissionsOpen()
    {
      if !AdmissionsOpen() { return Err(AdmissionsClosed); }
      var lease, running, _ := StartAcquisition(did);
      if lease.Err? || running { return lease; }
      var now := Now();
      var deadline := now + config.maxWait * SECOND;
      while clock < deadline
        invariant Valid() && (old(Limited()) ==> Limited())
        decreases deadline - clock
      {
        Pause();
        if !AdmissionsOpen() {
          ExpireWaiting(lease.value);
          return Err(AdmissionsClosed);
        }
        var claimed := ClaimAcquisition(did, lease.value);
        if claimed { return lease; }
      }
      ExpireWaiting(lease.value);
      r := Err(AtCapacity);
    }

    /** Erasure of an account drops its rows. */
    method Erase(did: Did)
      requires Valid()
      modifies this`events
      ensures Valid() && events == (map k | k in old(events) && old(events)[k].did != did :: old(events)[k])
      ensures old(Limited()) ==> Limited()
    {
      ghost var before := events;
      events := map k | k in events && events[k].did != did :: events[k];
      if Within(before, config) { ShrinkingKeepsLimits(before, events, config); }
    }
  }

  lemma ReserveKeepsLimits(t: Table, next: Token, c: Config, did: Did, counted: Time, at: Time)
    requires Numbered(t, next) && RoomToReserve(t, c, did, counted) && counted <= at
    ensures Within(t, c) ==> Within(t[next := CapacityEvent(did, Effect, Attempting, at)], c)
  {
    if Within(t, c) {
      var u := t[next := CapacityEvent(did, Effect, Attempting, at)];
      ReservingKeepsSpaced(t, next, c, did, counted, at);
      OtherRowKeepsRunning(t, u, next, Bridge, c.bridgeGlobal, c.bridgePerDid);
      OtherRowKeepsRunning(t, u, next, Acquisition, c.acquisitionGlobal, c.acquisitionPerDid);
      assert InStatus(u, Acquisition, Waiting) == InStatus(t, Acquisition, Waiting);
    }
  }

  lemma BridgeKeepsLimits(t: Table, next: Token, c: Config, row: CapacityEvent)
    requires Numbered(t, next) && Within(t, c) && row.kind == Bridge && row.status == Running
    requires RoomToRun(t, Bridge, row.did, c.bridgeGlobal, c.bridgePerDid)
    ensures Within(t[next := row], c)
  {
    var u := t[next := row];
    OtherRowKeepsSpaced(t, u, next, c);
    RunningOneMore(t, u, next, Bridge, c.bridgeGlobal, c.bridgePerDid);
    OtherRowKeepsRunning(t, u, next, Acquisition, c.acquisitionGlobal, c.acquisitionPerDid);
    assert InStatus(u, Acquisition, Waiting) == InStatus(t, Acquisition, Waiting);
  }

  lemma AcquisitionKeepsLimits(t: Table, next: Token, c: Config, row: CapacityEvent)
    requires Numbered(t, next) && Within(t, c) && row.kind == Acquisition
    requires row.status == Running ==> RoomToRun(t, Acquisition, row.did, c.acquisitionGlobal, c.acquisitionPerDid)
    requires row.status != Running ==> row.status == Waiting && |InStatus(t, Acquisition, Waiting)| < c.acquisitionQueue
    ensures Within(t[next := row], c)
  {
    var u := t[next := row];
    OtherRowKeepsSpaced(t, u, next, c);
    OtherRowKeepsRunning(t, u, next, Bridge, c.bridgeGlobal, c.bridgePerDid);
    if row.status == Running {
      RunningOneMore(t, u, next, Acquisition, c.acquisitionGlobal, c.acquisitionPerDid);
      assert InStatus(u, Acquisition, Waiting) == InStatus(t, Acquisition, Waiting);
    } else {
      OtherRowKeepsRunning(t, u, next, Acquisition, c.acquisitionGlobal, c.acquisitionPerDid);
      assert InStatus(u, Acquisition, Waiting) == InStatus(t, Acquisition, Waiting) + {next};
    }
  }

  lemma ClaimKeepsLimits(t: Table, lease: Token, c: Config)
    requires Within(t, c) && lease in t && t[lease].kind == Acquisition && t[lease].status == Waiting
    requires RoomToRun(t, Acquisition, t[lease].did, c.acquisitionGlobal, c.acquisitionPerDid)
    ensures Within(WithStatus(t, lease, Acquisition, Running), c)
  {
    var u := WithStatus(t, lease, Acquisition, Running);
    OtherRowKeepsSpaced(t, u, lease, c);
    OtherRowKeepsRunning(t, u, lease, Bridge, c.bridgeGlobal, c.bridgePerDid);
    RunningOneMore(t, u, lease, Acquisition, c.acquisitionGlobal, c.acquisitionPerDid);
    SubsetIsSmaller(InStatus(u, Acquisition, Waiting), InStatus(t, Acquisition, Waiting));
  }
}
