/** A receipt keeps only the observations some decision used. Replaying it must give the same
    decisions, at write time and ever after. */
module Receipts {
  import opened Policy

  /** The observations whose ids some evaluated subject used. */
  function KeepUsed(observations: seq<Observation>, ids: set<Fact>): (kept: seq<Observation>)
    ensures forall o :: o in kept <==> o in observations && o.fact in ids
  {
    if observations == [] then []
    else (if observations[0].fact in ids then [observations[0]] else []) + KeepUsed(observations[1..], ids)
  }

  function UsedBy(policy: CompiledPolicy, ev: EvidenceSet, subjects: seq<Did>, now: Time): set<Fact>
    requires Compiled(policy)
  {
    set s, f | s in subjects && f in UsedIds(policy, ev, s, now) :: f
  }

  function Trim(policy: CompiledPolicy, ev: EvidenceSet, subjects: seq<Did>, now: Time): EvidenceSet
    requires Compiled(policy)
  {
    Kept(ev, UsedBy(policy, ev, subjects, now))
  }

  /** Every leaf of a predicate reports the latest events it looked at, whatever its truth. */
  predicate Reports(ids: set<Fact>, node: Predicate, providers: map<string, Did>, ev: EvidenceSet, subject: Did)
    requires WellFormed(node, providers)
  {
    match node
    case All(cs) => forall i :: 0 <= i < |cs| ==> Reports(ids, cs[i], providers, ev, subject)
    case AnyOf(cs) => forall i :: 0 <= i < |cs| ==> Reports(ids, cs[i], providers, ev, subject)
    case Not(c) => Reports(ids, c, providers, ev, subject)
    case _ => Latest(Events(ev, providers[node.source], subject, Property(node))) <= ids
  }

  lemma {:induction false} EvalReports(ids: set<Fact>, node: Predicate, providers: map<string, Did>, ev: EvidenceSet,
                                       subject: Did, now: Time, mode: Mode)
    requires WellFormed(node, providers)
    requires Eval(node, providers, ev, subject, now, mode).ids <= ids
    ensures Reports(ids, node, providers, ev, subject)
  {
    match node
    case All(cs) => EachReports(ids, cs, providers, ev, subject, now, mode);
    case AnyOf(cs) => EachReports(ids, cs, providers, ev, subject, now, mode);
    case Not(c) => EvalReports(ids, c, providers, ev, subject, now, mode.(negative := !mode.negative));
    case _ =>
  }

  lemma {:induction false} EachReports(ids: set<Fact>, cs: seq<Predicate>, providers: map<string, Did>, ev: EvidenceSet,
                                       subject: Did, now: Time, mode: Mode)
    requires forall c :: c in cs ==> WellFormed(c, providers)
    requires Combine(False, True, EvalEach(cs, providers, ev, subject, now, mode)).ids <= ids
    ensures forall i :: 0 <= i < |cs| ==> Reports(ids, cs[i], providers, ev, subject)
  {
    var rs := EvalEach(cs, providers, ev, subject, now, mode);
    forall i | 0 <= i < |cs| ensures Reports(ids, cs[i], providers, ev, subject) {
      assert rs[i].ids <= Combine(False, True, rs).ids;
      EvalReports(ids, cs[i], providers, ev, subject, now, mode);
    }
  }

  lemma {:induction false} LatestExists(facts: set<Fact>)
    requires facts != {}
    ensures Latest(facts) != {}
    decreases facts
  {
    var f :| f in facts;
    var rest := facts - {f};
    if rest == {} {
      assert facts == {f};
    } else {
      LatestExists(rest);
      var g :| g in Latest(rest);
      assert facts == rest + {f};
      assert (if f.observedAt >= g.observedAt then f else g) in Latest(facts);
    }
  }

  /** Dropping superseded events, and only those, changes no leaf. */
  lemma LatestOfKept(facts: set<Fact>, kept: set<Fact>)
    requires Latest(facts) <= kept <= facts
    ensures Latest(kept) == Latest(facts)
    ensures kept == {} <==> facts == {}
  {
    if facts != {} {
      LatestExists(facts);
      var top :| top in Latest(facts);
      forall f | f in Latest(kept) ensures f in Latest(facts) {
        assert top.observedAt <= f.observedAt;
      }
    }
  }

  function Kept(ev: EvidenceSet, ids: set<Fact>): EvidenceSet {
    EvidenceSet(KeepUsed(ev.observations, ids), ev.coverage)
  }

  lemma LeafOnTrimmed(node: Predicate, providers: map<string, Did>, ev: EvidenceSet, ids: set<Fact>, subject: Did, now: Time, mode: Mode)
    requires node.IsLeaf() && WellFormed(node, providers) && Reports(ids, node, providers, ev, subject)
    ensures Leaf(node, providers, Kept(ev, ids), subject, now, mode) == Leaf(node, providers, ev, subject, now, mode)
  {
    hide JudgeLeaf;
    var p := providers[node.source];
    var all, kept := Events(ev, p, subject, Property(node)), Events(Kept(ev, ids), p, subject, Property(node));
    assert forall f :: f in kept <==> f in all && f in ids;
    LatestOfKept(all, kept);
    JudgeByLatest(node, all, kept, Complete(ev, p, subject), now, mode);
  }

  /** A leaf's truth depends on its facts only through their latest ones. */
  lemma JudgeByLatest(node: Predicate, a: set<Fact>, b: set<Fact>, complete: bool, now: Time, mode: Mode)
    requires node.IsLeaf() && Latest(a) == Latest(b) && (a == {} <==> b == {})
    ensures JudgeLeaf(node, a, complete, now, mode) == JudgeLeaf(node, b, complete, now, mode)
  {
  }

  lemma {:induction false} EvalOnTrimmed(node: Predicate, providers: map<string, Did>, ev: EvidenceSet, ids: set<Fact>, subject: Did,
                                         now: Time, mode: Mode)
    requires WellFormed(node, providers) && Reports(ids, node, providers, ev, subject)
    ensures Eval(node, providers, Kept(ev, ids), subject, now, mode) == Eval(node, providers, ev, subject, now, mode)
  {
    match node
    case All(cs) => EachOnTrimmed(cs, providers, ev, ids, subject, now, mode);
    case AnyOf(cs) => EachOnTrimmed(cs, providers, ev, ids, subject, now, mode);
    case Not(c) => EvalOnTrimmed(c, providers, ev, ids, subject, now, mode.(negative := !mode.negative));
    case _ => LeafOnTrimmed(node, providers, ev, ids, subject, now, mode);
  }

  lemma {:induction false} EachOnTrimmed(cs: seq<Predicate>, providers: map<string, Did>, ev: EvidenceSet, ids: set<Fact>, subject: Did,
                                         now: Time, mode: Mode)
    requires (forall c :: c in cs ==> WellFormed(c, providers))
    requires forall i :: 0 <= i < |cs| ==> Reports(ids, cs[i], providers, ev, subject)
    ensures EvalEach(cs, providers, Kept(ev, ids), subject, now, mode) == EvalEach(cs, providers, ev, subject, now, mode)
  {
    forall i | 0 <= i < |cs| { EvalOnTrimmed(cs[i], providers, ev, ids, subject, now, mode); }
  }

  /** The receipt replays: for every subject it covers and at EVERY evaluation time, the trimmed
      evidence gives the identical decision. */
  lemma ReceiptReplays(policy: CompiledPolicy, ev: EvidenceSet, subjects: seq<Did>, previewedAt: Time, subject: Did, now: Time)
    requires Compiled(policy) && subject in subjects
    ensures Evaluate(policy, Trim(policy, ev, subjects, previewedAt), subject, now) == Evaluate(policy, ev, subject, now)
  {
    var ids := UsedBy(policy, ev, subjects, previewedAt);
    var kept := Trim(policy, ev, subjects, previewedAt);
    forall i, t: Time, mode: Mode | 0 <= i < |policy.rules|
      ensures Eval(policy.rules[i].when, policy.providers, kept, subject, t, mode) == Eval(policy.rules[i].when, policy.providers, ev, subject, t, mode)
    {
      assert RuleTruth(policy.rules[i], policy.providers, ev, subject, previewedAt).ids <= UsedIds(policy, ev, subject, previewedAt) <= ids;
      EvalReports(ids, policy.rules[i].when, policy.providers, ev, subject, previewedAt, RuleMode(policy.rules[i].disposition));
      EvalOnTrimmed(policy.rules[i].when, policy.providers, ev, ids, subject, t, mode);
    }
    assert Results(policy, kept, subject, now) == Results(policy, ev, subject, now);
    assert forall i | 0 <= i < |policy.rules| ::
      RuleTruth(policy.rules[i], policy.providers, kept, subject, now) == RuleTruth(policy.rules[i], policy.providers, ev, subject, now);
    assert UsedIds(policy, kept, subject, now) == UsedIds(policy, ev, subject, now);
  }

  /** Fetching again does not renew standing: evaluation sees facts, not when or how they were
      retrieved, in which order, or how often. */
  lemma {:induction false} RefetchDoesNotRenew(node: Predicate, providers: map<string, Did>, ev: EvidenceSet, refetched: EvidenceSet,
                                               subject: Did, now: Time, mode: Mode)
    requires WellFormed(node, providers) && ev.coverage == refetched.coverage
    requires AllFacts(ev) == AllFacts(refetched)
    ensures Eval(node, providers, ev, subject, now, mode) == Eval(node, providers, refetched, subject, now, mode)
  {
    match node
    case All(cs) =>
      forall i | 0 <= i < |cs| { RefetchDoesNotRenew(cs[i], providers, ev, refetched, subject, now, mode); }
      assert EvalEach(cs, providers, ev, subject, now, mode) == EvalEach(cs, providers, refetched, subject, now, mode);
    case AnyOf(cs) =>
      forall i | 0 <= i < |cs| { RefetchDoesNotRenew(cs[i], providers, ev, refetched, subject, now, mode); }
      assert EvalEach(cs, providers, ev, subject, now, mode) == EvalEach(cs, providers, refetched, subject, now, mode);
    case Not(c) =>
      RefetchDoesNotRenew(c, providers, ev, refetched, subject, now, mode.(negative := !mode.negative));
    case _ =>
      var p := providers[node.source];
      assert FactsAt(ev, p, subject) == FactsAt(refetched, p, subject);
  }
}
