/** The durable action journal and consequence ledger of one account, and what its history proves
    about the order of remote requests. The command line and the hosted worker are both clients. */
module Ledger {
  import opened Policy
  import opened Planning

  datatype Kind = Mute | Unmute

  datatype AttemptStatus = Pending | Confirmed | NotConfirmed

  datatype Attempt = Attempt(did: Did, kind: Kind, status: AttemptStatus)

  /** The two tables: consequence ledger by subject, and attempts by rowid. */
  datatype Journal = Journal(ledger: map<Did, LedgerStatus>, attempts: seq<Attempt>)

  const EMPTY := Journal(map[], [])

  /** What happens to a journal, plus the remote requests made between its writes. */
  datatype Event =
    | Begun(did: Did, kind: Kind, attempt: nat)
    | Sent(did: Did, kind: Kind, attempt: nat)
    | Finished(did: Did, kind: Kind, attempt: nat, success: bool)
    | Halted(did: Did)
    | Resumed(did: Did)

  function Status(j: Journal, did: Did): LedgerStatus {
    if did in j.ledger then j.ledger[did] else Untracked
  }

  function BeginAction(j: Journal, did: Did, kind: Kind): Journal {
    Journal(j.ledger[did := Unresolved], j.attempts + [Attempt(did, kind, Pending)])
  }

  function Settled(kind: Kind, success: bool): LedgerStatus {
    if !success then Unresolved else if kind == Mute then Attributed else Released
  }

  function FinishAction(j: Journal, did: Did, kind: Kind, attempt: nat, success: bool): Journal {
    var status := if success then Confirmed else NotConfirmed;
    var attempts := if attempt < |j.attempts| then j.attempts[attempt := j.attempts[attempt].(status := status)] else j.attempts;
    Journal(j.ledger[did := Settled(kind, success)], attempts)
  }

  function SetStatus(j: Journal, did: Did, status: LedgerStatus): Journal {
    j.(ledger := j.ledger[did := status])
  }

  function Apply(j: Journal, e: Event): Journal {
    match e
    case Begun(d, k, _) => BeginAction(j, d, k)
    case Sent(_, _, _) => j
    case Finished(d, k, n, ok) => FinishAction(j, d, k, n, ok)
    case Halted(d) => SetStatus(j, d, Suspended)
    case Resumed(d) => SetStatus(j, d, Untracked)
  }

  function Replay(h: seq<Event>): Journal {
    if h == [] then EMPTY else Apply(Replay(h[..|h| - 1]), h[|h| - 1])
  }

  lemma ReplayAppend(h: seq<Event>, e: Event)
    ensures Replay(h + [e]) == Apply(Replay(h), e)
  {
    assert (h + [e])[..|h|] == h;
  }

  /** The law every client keeps: a begin needs the ledger's permission, a request directly follows
      its own journal row, and success is only recorded directly after the request it confirms. */
  predicate LawfulStep(h: seq<Event>, e: Event) {
    var j := Replay(h);
    match e
    case Begun(d, k, n) => n == |j.attempts| && Permits(Status(j, d), k == Mute)
    case Sent(d, k, n) => h != [] && h[|h| - 1] == Begun(d, k, n)
    case Finished(d, k, n, ok) =>
      n < |j.attempts| && j.attempts[n].did == d && j.attempts[n].kind == k &&
      (ok ==> h != [] && h[|h| - 1] == Sent(d, k, n))
    case Halted(_) => true
    case Resumed(d) => Status(j, d) == Suspended || Status(j, d) == Unresolved
  }

  predicate LawfulPoint(h: seq<Event>, i: nat)
    requires i < |h|
  {
    LawfulStep(h[..i], h[i])
  }

  ghost predicate Lawful(h: seq<Event>) {
    forall i {:trigger LawfulPoint(h, i)} :: 0 <= i < |h| ==> LawfulPoint(h, i)
  }

  lemma LawfulAppend(h: seq<Event>, e: Event)
    requires Lawful(h) && LawfulStep(h, e)
    ensures Lawful(h + [e])
  {
    forall i | 0 <= i < |h + [e]| ensures LawfulPoint(h + [e], i) {
      if i < |h| {
        assert LawfulPoint(h, i);
        assert (h + [e])[..i] == h[..i];
      } else {
        assert (h + [e])[..i] == h;
      }
    }
  }

  lemma LawfulAt(h: seq<Event>, i: nat)
    requires Lawful(h) && i < |h|
    ensures LawfulStep(h[..i], h[i]) && Replay(h[..i + 1]) == Apply(Replay(h[..i]), h[i])
  {
    assert LawfulPoint(h, i);
    assert h[..i + 1] == h[..i] + [h[i]];
    ReplayAppend(h[..i], h[i]);
  }

  lemma LawfulPrefix(h: seq<Event>, i: nat)
    requires Lawful(h) && i <= |h|
    ensures Lawful(h[..i])
  {
    forall k | 0 <= k < i ensures LawfulPoint(h[..i], k) {
      assert LawfulPoint(h, k);
      assert h[..i][..k] == h[..k];
    }
  }

  /** A request directly follows its own begin. */
  lemma SentAfterBegun(h: seq<Event>, i: nat)
    requires Lawful(h) && i < |h| && h[i].Sent?
    ensures i > 0 && h[i - 1] == Begun(h[i].did, h[i].kind, h[i].attempt)
    ensures Permits(Status(Replay(h[..i - 1]), h[i].did), h[i].kind == Mute) && h[i].attempt == |Replay(h[..i - 1]).attempts|
  {
    LawfulAt(h, i);
    assert h[..i][|h[..i]| - 1] == h[i - 1];
    LawfulAt(h, i - 1);
  }

  /** An event after which the subject may be muted again. */
  predicate ReleasesMute(e: Event, d: Did) {
    e == Resumed(d) || (e.Finished? && e.did == d && e.kind == Unmute && e.success)
  }

  predicate ReleasesUnmute(e: Event, d: Did) {
    e.Finished? && e.did == d && e.kind == Mute && e.success
  }

  predicate ReleasesKind(e: Event, d: Did, kind: Kind) {
    if kind == Mute then ReleasesMute(e, d) else ReleasesUnmute(e, d)
  }

  predicate Refused(h: seq<Event>, i: nat, d: Did, kind: Kind)
    requires i <= |h|
  {
    !Permits(Status(Replay(h[..i]), d), kind == Mute)
  }

  lemma RefusedStep(h: seq<Event>, i: nat, d: Did, kind: Kind)
    requires Lawful(h) && i < |h| && !ReleasesKind(h[i], d, kind)
    requires Refused(h, i, d, kind) || (h[i].Begun? && h[i].did == d)
    ensures Refused(h, i + 1, d, kind)
  {
    LawfulAt(h, i);
  }

  /** Once a request was begun, its kind stays refused until a releasing event. */
  lemma {:induction false} StaysRefused(h: seq<Event>, i: nat, j: nat, d: Did, kind: Kind)
    requires Lawful(h) && i < j <= |h|
    requires h[i].Begun? && h[i].did == d
    requires forall k :: i <= k < j ==> !ReleasesKind(h[k], d, kind)
    ensures Refused(h, j, d, kind)
  {
    if j > i + 1 {
      StaysRefused(h, i, j - 1, d, kind);
    }
    RefusedStep(h, j - 1, d, kind);
  }

  /** Two requests of one kind for one subject are always separated: mutes by an explicit resume or
      a confirmed unmute, unmutes by a confirmed mute. */
  lemma RequestsAlternate(h: seq<Event>, i: nat, j: nat, d: Did, kind: Kind)
    requires Lawful(h) && i < j < |h|
    requires h[i].Sent? && h[i].did == d && h[i].kind == kind
    requires h[j].Sent? && h[j].did == d && h[j].kind == kind
    ensures exists k :: i < k < j && ReleasesKind(h[k], d, kind)
  {
    SentAfterBegun(h, i);
    SentAfterBegun(h, j);
    if forall k :: i < k < j ==> !ReleasesKind(h[k], d, kind) {
      StaysRefused(h, i - 1, j - 1, d, kind);
    }
  }

  /** A request for the subject that has left, or is about to, when the history has i events. */
  predicate InFlight(h: seq<Event>, i: nat, d: Did)
    requires i <= |h|
  {
    i > 0 && (h[i - 1].Begun? || h[i - 1].Sent?) && h[i - 1].did == d
  }

  lemma FrozenStep(h: seq<Event>, i: nat, d: Did)
    requires Lawful(h) && i < |h| && Frozen(Status(Replay(h[..i]), d)) && h[i] != Resumed(d)
    ensures Frozen(Status(Replay(h[..i + 1]), d)) || (h[i].Finished? && h[i].did == d && h[i].success)
    ensures !(h[i].Begun? && h[i].did == d)
  {
    LawfulAt(h, i);
  }

  /** An unresolved or suspended subject with no request in flight stays frozen until it is explicitly resumed:
      nothing is begun for it, and whatever is decided and observed, nothing is planned. */
  lemma {:induction false} FrozenUntilResumed(h: seq<Event>, i: nat, j: nat, d: Did)
    requires Lawful(h) && i <= j <= |h| && Frozen(Status(Replay(h[..i]), d)) && !InFlight(h, i, d)
    requires forall k :: i <= k < j ==> h[k] != Resumed(d)
    ensures Frozen(Status(Replay(h[..j]), d)) && forall k :: i <= k < j ==> !(h[k].Begun? && h[k].did == d)
    ensures forall decision: Decision, o: Remote, overrides: Overrides, followed: bool ::
              PlanAction(decision, o, Status(Replay(h[..j]), d), overrides, followed).action == NoAction
  {
    hide Replay;
    if i < j {
      FrozenUntilResumed(h, i, j - 1, d);
      FrozenStep(h, j - 1, d);
      if h[j - 1].Finished? && h[j - 1].did == d && h[j - 1].success {
        LawfulAt(h, j - 1);
        assert h[..j - 1][j - 2] == h[j - 2];
        SentAfterBegun(h, j - 2);
        assert false;
      }
    }
  }

  lemma {:induction false} AttemptsGrow(h: seq<Event>, i: nat, j: nat)
    requires i < j <= |h| && h[i].Begun?
    ensures |Replay(h[..i]).attempts| < |Replay(h[..j]).attempts|
  {
    assert h[..j] == h[..j - 1] + [h[j - 1]];
    ReplayAppend(h[..j - 1], h[j - 1]);
    if i + 1 < j { AttemptsGrow(h, i, j - 1); }
  }

  /** No attempt is ever sent twice. */
  lemma AttemptSentOnce(h: seq<Event>, i: nat, j: nat)
    requires Lawful(h) && i < j < |h| && h[i].Sent? && h[j].Sent?
    ensures h[i].attempt != h[j].attempt
  {
    SentAfterBegun(h, i);
    SentAfterBegun(h, j);
    AttemptsGrow(h, i - 1, j - 1);
  }

  /** A journal row reads confirmed only if its request was really sent. */
  lemma {:induction false} ConfirmedWasSent(h: seq<Event>, n: nat)
    requires Lawful(h) && n < |Replay(h).attempts| && Replay(h).attempts[n].status == Confirmed
    ensures exists i :: 0 <= i < |h| && h[i].Sent? && h[i].attempt == n
  {
    var last := |h| - 1;
    LawfulAt(h, last);
    assert h[..last + 1] == h;
    if h[last].Finished? && h[last].attempt == n {
      assert h[..last][last - 1] == h[last - 1];
    } else {
      LawfulPrefix(h, last);
      ConfirmedWasSent(h[..last], n);
      assert forall i | 0 <= i < last :: h[..last][i] == h[i];
    }
  }

  /** The account's store. Each method is one durable transaction. */
  class Store {
    var ledger: map<Did, LedgerStatus>
    var attempts: seq<Attempt>
    ghost var history: seq<Event>

    ghost predicate Valid()
      reads this
    {
      Lawful(history) && Tables() == Replay(history)
    }

    function Tables(): Journal
      reads this
    {
      Journal(ledger, attempts)
    }

    constructor ()
      ensures Valid() && history == []
    {
      ledger, attempts, history := map[], [], [];
    }

    method Set(did: Did, status: LedgerStatus)
      requires Valid() && (status == Suspended || (status == Untracked && Status(Tables(), did) in {Suspended, Unresolved}))
      modifies this
      ensures Valid() && Tables() == SetStatus(old(Tables()), did, status)
      ensures history == old(history) + [if status == Suspended then Halted(did) else Resumed(did)]
    {
      ledger := ledger[did := status];
      var e := if status == Suspended then Halted(did) else Resumed(did);
      LawfulAppend(history, e);
      ReplayAppend(history, e);
      history := history + [e];
    }

    method Begin(did: Did, kind: Kind) returns (attempt: nat)
      requires Valid() && Permits(Status(Tables(), did), kind == Mute)
      modifies this
      ensures Valid() && Tables() == BeginAction(old(Tables()), did, kind)
      ensures attempt == |old(attempts)| && history == old(history) + [Begun(did, kind, attempt)]
    {
      attempt := |attempts|;
      attempts := attempts + [Attempt(did, kind, Pending)];
      ledger := ledger[did := Unresolved];
      LawfulAppend(history, Begun(did, kind, attempt));
      ReplayAppend(history, Begun(did, kind, attempt));
      history := history + [Begun(did, kind, attempt)];
    }

    /** Notes that the request of the row just journalled left the process. */
    ghost method NoteSent(did: Did, kind: Kind, attempt: nat)
      requires Valid() && history != [] && history[|history| - 1] == Begun(did, kind, attempt)
      modifies this`history
      ensures Valid() && history == old(history) + [Sent(did, kind, attempt)]
    {
      LawfulAppend(history, Sent(did, kind, attempt));
      ReplayAppend(history, Sent(did, kind, attempt));
      history := history + [Sent(did, kind, attempt)];
    }

    method Finish(attempt: nat, did: Did, kind: Kind, success: bool)
      requires Valid() && LawfulStep(history, Finished(did, kind, attempt, success))
      modifies this
      ensures Valid() && Tables() == FinishAction(old(Tables()), did, kind, attempt, success)
      ensures history == old(history) + [Finished(did, kind, attempt, success)]
    {
      var status := if success then Confirmed else NotConfirmed;
      attempts := attempts[attempt := attempts[attempt].(status := status)];
      ledger := ledger[did := Settled(kind, success)];
      LawfulAppend(history, Finished(did, kind, attempt, success));
      ReplayAppend(history, Finished(did, kind, attempt, success));
      history := history + [Finished(did, kind, attempt, success)];
    }
  }
}
