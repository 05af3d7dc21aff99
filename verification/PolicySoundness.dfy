/** What a verdict means: missing evidence never overturns a conclusive one, coverage only
    resolves unknowns, and rule order has no authority. */
module PolicySoundness {
  import opened Wrappers
  import opened Policy

  // ----- a two-valued reading of a policy, as a reference -----

  /** A world settles every leaf one way or the other. */
  type World = Predicate -> bool

  predicate Holds(node: Predicate, world: World) {
    match node
    case All(cs) => forall i :: 0 <= i < |cs| ==> Holds(cs[i], world)
    case AnyOf(cs) => exists i :: 0 <= i < |cs| && Holds(cs[i], world)
    case Not(c) => !Holds(c, world)
    case _ => world(node)
  }

  /** The strict reading of a leaf: only a completely read publisher can decide it. */
  const STRICT := Mode(false, true, false)

  /** A world the evidence allows: it keeps every leaf the strict reading decides and is free on the rest. */
  ghost predicate Admits(world: World, providers: map<string, Did>, ev: EvidenceSet, subject: Did, now: Time) {
    forall leaf: Predicate | leaf.IsLeaf() && WellFormed(leaf, providers) ::
      var t := Leaf(leaf, providers, ev, subject, now, STRICT).truth;
      (t == True ==> world(leaf)) && (t == False ==> !world(leaf))
  }

  /** True is binding on unnegated or strict paths, False on negated or strict ones. */
  predicate Binding(mode: Mode, t: Truth) {
    match t
    case True => !mode.negative || mode.requireCurrent
    case False => mode.negative || mode.requireCurrent
    case Unknown => false
  }

  /** Polarity soundness: a binding truth value is the classical value in every admitted world. */
  lemma {:induction false} BindingTruthHolds(node: Predicate, providers: map<string, Did>, ev: EvidenceSet, subject: Did,
                                             now: Time, mode: Mode, world: World)
    requires WellFormed(node, providers) && !mode.ignoreExpiry
    requires Admits(world, providers, ev, subject, now)
    ensures var t := Eval(node, providers, ev, subject, now, mode).truth;
            Binding(mode, t) ==> (Holds(node, world) <==> t == True)
  {
    match node
    case All(cs) =>
      var rs := EvalEach(cs, providers, ev, subject, now, mode);
      forall i | 0 <= i < |cs| ensures Binding(mode, rs[i].truth) ==> (Holds(cs[i], world) <==> rs[i].truth == True) {
        BindingTruthHolds(cs[i], providers, ev, subject, now, mode, world);
      }
    case AnyOf(cs) =>
      var rs := EvalEach(cs, providers, ev, subject, now, mode);
      forall i | 0 <= i < |cs| ensures Binding(mode, rs[i].truth) ==> (Holds(cs[i], world) <==> rs[i].truth == True) {
        BindingTruthHolds(cs[i], providers, ev, subject, now, mode, world);
      }
    case Not(c) =>
      BindingTruthHolds(c, providers, ev, subject, now, mode.(negative := !mode.negative), world);
    case _ =>
      var strict := Leaf(node, providers, ev, subject, now, STRICT).truth;
  }

  ghost predicate SomeRuleHolds(policy: CompiledPolicy, d: Disposition, world: World) {
    exists i :: 0 <= i < |policy.rules| && policy.rules[i].disposition == d && Holds(policy.rules[i].when, world)
  }

  /** A quarantine verdict is right in every world the evidence allows: some quarantine rule holds
      there and no allow rule does. An allow verdict has an allow rule that holds there. */
  lemma ConclusiveVerdictHoldsInEveryWorld(policy: CompiledPolicy, ev: EvidenceSet, subject: Did, now: Time, world: World)
    requires Compiled(policy) && Admits(world, policy.providers, ev, subject, now)
    ensures var d := Evaluate(policy, ev, subject, now);
            (d.outcome == Quarantined ==> SomeRuleHolds(policy, Quarantine, world) && !SomeRuleHolds(policy, Allow, world)) &&
            (d.basis == AllowRule ==> SomeRuleHolds(policy, Allow, world))
  {
    var rs := Results(policy, ev, subject, now);
    forall i | 0 <= i < |rs|
      ensures Binding(RuleMode(rs[i].disposition), rs[i].truth) ==> (Holds(policy.rules[i].when, world) <==> rs[i].truth == True)
    {
      BindingTruthHolds(policy.rules[i].when, policy.providers, ev, subject, now, RuleMode(policy.rules[i].disposition), world);
    }
  }

  // ----- completing the evidence -----

  /** `later` may say anything where `ev` was not completely covered, and nothing new where it was. */
  ghost predicate Completes(ev: EvidenceSet, later: EvidenceSet) {
    forall p: Did, s: Did | Complete(ev, p, s) :: Complete(later, p, s) && FactsAt(later, p, s) == FactsAt(ev, p, s)
  }

  ghost predicate Survives(mode: Mode, t: Truth, t': Truth) {
    Binding(mode, t) ==> t' == t
  }

  lemma {:induction false} BindingTruthSurvives(node: Predicate, providers: map<string, Did>, ev: EvidenceSet, later: EvidenceSet,
                                                subject: Did, now: Time, mode: Mode)
    requires WellFormed(node, providers) && Completes(ev, later)
    requires !mode.ignoreExpiry
    ensures Survives(mode, Eval(node, providers, ev, subject, now, mode).truth, Eval(node, providers, later, subject, now, mode).truth)
  {
    match node
    case All(cs) => EachSurvives(cs, providers, ev, later, subject, now, mode);
    case AnyOf(cs) => EachSurvives(cs, providers, ev, later, subject, now, mode);
    case Not(c) => BindingTruthSurvives(c, providers, ev, later, subject, now, mode.(negative := !mode.negative));
    case _ =>
      var provider := providers[node.source];
      if Complete(ev, provider, subject) {
        assert FactsAt(later, provider, subject) == FactsAt(ev, provider, subject);
      }
  }

  lemma {:induction false} EachSurvives(cs: seq<Predicate>, providers: map<string, Did>, ev: EvidenceSet, later: EvidenceSet,
                                        subject: Did, now: Time, mode: Mode)
    requires (forall c :: c in cs ==> WellFormed(c, providers)) && Completes(ev, later)
    requires !mode.ignoreExpiry
    ensures var rs, qs := EvalEach(cs, providers, ev, subject, now, mode), EvalEach(cs, providers, later, subject, now, mode);
            Survives(mode, Combine(False, True, rs).truth, Combine(False, True, qs).truth) &&
            Survives(mode, Combine(True, False, rs).truth, Combine(True, False, qs).truth)
  {
    var rs, qs := EvalEach(cs, providers, ev, subject, now, mode), EvalEach(cs, providers, later, subject, now, mode);
    forall i | 0 <= i < |cs| ensures Survives(mode, rs[i].truth, qs[i].truth) {
      BindingTruthSurvives(cs[i], providers, ev, later, subject, now, mode);
    }
  }

  lemma VerdictSurvives(rs: seq<RuleResult>, qs: seq<RuleResult>)
    requires |rs| == |qs|
    requires forall i | 0 <= i < |rs| :: rs[i].disposition == qs[i].disposition && Survives(RuleMode(rs[i].disposition), rs[i].truth, qs[i].truth)
    ensures !Uncertain(rs) && Winner(rs) > 0 ==> !Uncertain(qs) && Winner(qs) == Winner(rs)
  {
    if !Uncertain(rs) && Winner(rs) > 0 {
      var k :| 0 <= k < |rs| && rs[k].truth == True && Rank(rs[k].disposition) == Winner(rs);
      assert qs[k].truth == True;
      forall i | 0 <= i < |qs| && qs[i].truth != False ensures Rank(qs[i].disposition) <= Winner(rs) {
        assert rs[i].disposition == qs[i].disposition;
      }
    }
  }

  /** Missing evidence cannot overturn a conclusive verdict. */
  lemma ConclusiveVerdictSurvivesCompletion(policy: CompiledPolicy, ev: EvidenceSet, later: EvidenceSet, subject: Did, now: Time)
    requires Compiled(policy) && Completes(ev, later)
    ensures var d, d' := Evaluate(policy, ev, subject, now), Evaluate(policy, later, subject, now);
            d.outcome == Quarantined || d.basis == AllowRule ==> d'.outcome == d.outcome && d'.basis == d.basis
  {
    var rs, qs := Results(policy, ev, subject, now), Results(policy, later, subject, now);
    forall i | 0 <= i < |rs| ensures Survives(RuleMode(rs[i].disposition), rs[i].truth, qs[i].truth) {
      BindingTruthSurvives(policy.rules[i].when, policy.providers, ev, later, subject, now, RuleMode(policy.rules[i].disposition));
    }
    VerdictSurvives(rs, qs);
  }

  // ----- coverage alone -----

  /** The same observations, at least as completely covered. */
  ghost predicate CoversMore(ev: EvidenceSet, later: EvidenceSet) {
    forall p: Did, s: Did ::
      FactsAt(later, p, s) == FactsAt(ev, p, s) && (Complete(ev, p, s) ==> Complete(later, p, s))
  }

  predicate Refines(t: Truth, t': Truth) {
    t == Unknown || t == t'
  }

  ghost predicate Resolves(j: Judgement, j': Judgement) {
    Refines(j.truth, j'.truth) && j.ids == j'.ids
  }

  lemma {:induction false} CoverageOnlyResolves(node: Predicate, providers: map<string, Did>, ev: EvidenceSet, later: EvidenceSet,
                                                subject: Did, now: Time, mode: Mode)
    requires WellFormed(node, providers) && CoversMore(ev, later)
    ensures Resolves(Eval(node, providers, ev, subject, now, mode), Eval(node, providers, later, subject, now, mode))
  {
    match node
    case All(cs) => EachResolves(cs, providers, ev, later, subject, now, mode);
    case AnyOf(cs) => EachResolves(cs, providers, ev, later, subject, now, mode);
    case Not(c) => CoverageOnlyResolves(c, providers, ev, later, subject, now, mode.(negative := !mode.negative));
    case _ =>
      var provider := providers[node.source];
      assert FactsAt(later, provider, subject) == FactsAt(ev, provider, subject);
  }

  lemma {:induction false} EachResolves(cs: seq<Predicate>, providers: map<string, Did>, ev: EvidenceSet, later: EvidenceSet,
                                        subject: Did, now: Time, mode: Mode)
    requires (forall c :: c in cs ==> WellFormed(c, providers)) && CoversMore(ev, later)
    ensures var rs, qs := EvalEach(cs, providers, ev, subject, now, mode), EvalEach(cs, providers, later, subject, now, mode);
            Resolves(Combine(False, True, rs), Combine(False, True, qs)) &&
            Resolves(Combine(True, False, rs), Combine(True, False, qs))
  {
    var rs, qs := EvalEach(cs, providers, ev, subject, now, mode), EvalEach(cs, providers, later, subject, now, mode);
    forall i | 0 <= i < |cs| ensures Resolves(rs[i], qs[i]) {
      CoverageOnlyResolves(cs[i], providers, ev, later, subject, now, mode);
    }
    assert Combine(False, True, rs).ids == Combine(False, True, qs).ids;
  }

  lemma DeterminateVerdictKept(rs: seq<RuleResult>, qs: seq<RuleResult>)
    requires |rs| == |qs|
    requires forall i | 0 <= i < |rs| :: rs[i].disposition == qs[i].disposition && Refines(rs[i].truth, qs[i].truth)
    ensures !Uncertain(rs) ==> !Uncertain(qs) && Winner(qs) == Winner(rs)
    ensures Winner(qs) >= Winner(rs)
  {
    if Winner(rs) > 0 {
      var k :| 0 <= k < |rs| && rs[k].truth == True && Rank(rs[k].disposition) == Winner(rs);
      assert qs[k].truth == True;
    }
    if !Uncertain(rs) {
      forall i | 0 <= i < |qs| && qs[i].truth != False ensures Rank(qs[i].disposition) <= Winner(rs) {
        assert rs[i].disposition == qs[i].disposition;
      }
    }
  }

  lemma ResultsResolve(policy: CompiledPolicy, ev: EvidenceSet, later: EvidenceSet, subject: Did, now: Time)
    requires Compiled(policy) && CoversMore(ev, later)
    ensures var rs, qs := Results(policy, ev, subject, now), Results(policy, later, subject, now);
            forall i | 0 <= i < |rs| :: rs[i].disposition == qs[i].disposition && Refines(rs[i].truth, qs[i].truth)
    ensures UsedIds(policy, ev, subject, now) == UsedIds(policy, later, subject, now)
  {
    forall i | 0 <= i < |policy.rules|
      ensures Resolves(RuleTruth(policy.rules[i], policy.providers, ev, subject, now), RuleTruth(policy.rules[i], policy.providers, later, subject, now))
    {
      CoverageOnlyResolves(policy.rules[i].when, policy.providers, ev, later, subject, now, RuleMode(policy.rules[i].disposition));
    }
  }

  /** More coverage for the same observations only resolves unknown rules, so a determinate
      outcome and its basis never change. */
  lemma CoverageKeepsDeterminateVerdicts(policy: CompiledPolicy, ev: EvidenceSet, later: EvidenceSet, subject: Did, now: Time)
    requires Compiled(policy) && CoversMore(ev, later)
    ensures var d, d' := Evaluate(policy, ev, subject, now), Evaluate(policy, later, subject, now);
            d.evidenceIds == d'.evidenceIds &&
            (d.outcome != Indeterminate ==> d'.outcome == d.outcome && d'.basis == d.basis)
  {
    ResultsResolve(policy, ev, later, subject, now);
    DeterminateVerdictKept(Results(policy, ev, subject, now), Results(policy, later, subject, now));
  }

  // ----- indeterminacy is exact -----

  /** Decides every unknown rule by the given choices. */
  function Resolve(rs: seq<RuleResult>, choice: seq<bool>): (r: seq<RuleResult>)
    requires |choice| == |rs|
    ensures |r| == |rs| && forall i :: 0 <= i < |rs| ==> r[i].name == rs[i].name && r[i].disposition == rs[i].disposition
    ensures forall i :: 0 <= i < |rs| ==> r[i].truth != Unknown && Refines(rs[i].truth, r[i].truth)
  {
    seq(|rs|, i requires 0 <= i < |rs| =>
      if rs[i].truth == Unknown then rs[i].(truth := if choice[i] then True else False) else rs[i])
  }

  lemma UncertainSplits(rs: seq<RuleResult>, none: seq<bool>, k: nat)
    requires k < |rs| && rs[k].truth == Unknown && Rank(rs[k].disposition) > Winner(rs)
    requires |none| == |rs| && forall i :: 0 <= i < |rs| ==> !none[i]
    ensures Winner(Resolve(rs, none)) < Winner(Resolve(rs, none[k := true]))
  {
    var low, high := Resolve(rs, none), Resolve(rs, none[k := true]);
    assert high[k].truth == True;
    if Winner(low) > 0 {
      var i :| 0 <= i < |low| && low[i].truth == True && Rank(low[i].disposition) == Winner(low);
      assert rs[i].truth == True;
    }
  }

  /** The winning rank once the unknown rules are settled by `choice`. */
  ghost function WinnerUnder(rs: seq<RuleResult>, choice: seq<bool>): nat
    requires |choice| == |rs|
  {
    Winner(Resolve(rs, choice))
  }

  ghost predicate SettlementsDisagree(rs: seq<RuleResult>) {
    exists a: seq<bool>, b: seq<bool> :: |a| == |rs| && |b| == |rs| && WinnerUnder(rs, a) != WinnerUnder(rs, b)
  }

  lemma Disagreement(rs: seq<RuleResult>, a: seq<bool>, b: seq<bool>)
    requires |a| == |rs| && |b| == |rs| && WinnerUnder(rs, a) != WinnerUnder(rs, b)
    ensures SettlementsDisagree(rs)
  {
    hide WinnerUnder, Winner, Resolve;
  }

  lemma UncertainDisagrees(rs: seq<RuleResult>)
    requires Uncertain(rs)
    ensures SettlementsDisagree(rs)
  {
    hide SettlementsDisagree;
    var k :| 0 <= k < |rs| && rs[k].truth == Unknown && Rank(rs[k].disposition) > Winner(rs);
    var none: seq<bool> := seq(|rs|, i => false);
    UncertainSplits(rs, none, k);
    Disagreement(rs, none, none[k := true]);
  }

  lemma CertainAgrees(rs: seq<RuleResult>)
    requires !Uncertain(rs)
    ensures !SettlementsDisagree(rs)
  {
    forall a: seq<bool> | |a| == |rs| ensures WinnerUnder(rs, a) == Winner(rs) {
      DeterminateVerdictKept(rs, Resolve(rs, a));
    }
  }

  /** The result is indeterminate exactly when two ways of settling the unknown rules disagree
      about the winning disposition. */
  lemma IndeterminateExactly(policy: CompiledPolicy, ev: EvidenceSet, subject: Did, now: Time)
    requires Compiled(policy)
    ensures Evaluate(policy, ev, subject, now).outcome == Indeterminate <==> SettlementsDisagree(Results(policy, ev, subject, now))
  {
    var rs := Results(policy, ev, subject, now);
    if Uncertain(rs) { UncertainDisagrees(rs); } else { CertainAgrees(rs); }
  }

  // ----- rule order -----

  predicate RulesWithin(a: seq<Rule>, b: seq<Rule>) {
    forall i :: 0 <= i < |a| ==> a[i] in b
  }

  predicate Within(rs: seq<RuleResult>, qs: seq<RuleResult>) {
    forall i :: 0 <= i < |rs| ==> rs[i] in qs
  }

  lemma ResultsWithin(policy: CompiledPolicy, other: CompiledPolicy, ev: EvidenceSet, subject: Did, now: Time)
    requires Compiled(policy) && Compiled(other)
    requires policy.providers == other.providers && RulesWithin(policy.rules, other.rules)
    ensures Within(Results(policy, ev, subject, now), Results(other, ev, subject, now))
    ensures UsedIds(policy, ev, subject, now) <= UsedIds(other, ev, subject, now)
  {
    var rs, qs := Results(policy, ev, subject, now), Results(other, ev, subject, now);
    forall i | 0 <= i < |rs| ensures rs[i] in qs {
      var j :| 0 <= j < |other.rules| && policy.rules[i] == other.rules[j];
      assert rs[i] == qs[j];
    }
  }

  lemma WinnerWithin(rs: seq<RuleResult>, qs: seq<RuleResult>)
    requires Within(rs, qs)
    ensures Winner(rs) <= Winner(qs)
    ensures Winner(rs) == Winner(qs) && Uncertain(rs) ==> Uncertain(qs)
  {
    if Winner(rs) > 0 {
      var i :| 0 <= i < |rs| && rs[i].truth == True && Rank(rs[i].disposition) == Winner(rs);
      assert rs[i] in qs;
    }
    if Uncertain(rs) {
      var i :| 0 <= i < |rs| && rs[i].truth == Unknown && Rank(rs[i].disposition) > Winner(rs);
      assert rs[i] in qs;
    }
  }

  lemma FlagsWithin(rs: seq<RuleResult>, qs: seq<RuleResult>)
    requires Within(rs, qs)
    ensures (exists i :: 0 <= i < |rs| && rs[i].expiryBlocksMatch) ==> exists i :: 0 <= i < |qs| && qs[i].expiryBlocksMatch
    ensures Conclude("", rs, {}).disagreements ==> Conclude("", qs, {}).disagreements
  {
    if i :| 0 <= i < |rs| && rs[i].expiryBlocksMatch { assert rs[i] in qs; }
    if i, j :| 0 <= i < |rs| && 0 <= j < |rs| && rs[i].truth == True && rs[j].truth == True && rs[i].disposition != rs[j].disposition {
      assert rs[i] in qs && rs[j] in qs;
    }
  }

  lemma SameConclusion(subject: Did, rs: seq<RuleResult>, qs: seq<RuleResult>, ids: set<Fact>)
    requires Within(rs, qs) && Within(qs, rs)
    ensures var d, d' := Conclude(subject, rs, ids), Conclude(subject, qs, ids);
            d.outcome == d'.outcome && d.basis == d'.basis && d.reason == d'.reason && d.disagreements == d'.disagreements
  {
    WinnerWithin(rs, qs);
    WinnerWithin(qs, rs);
    FlagsWithin(rs, qs);
    FlagsWithin(qs, rs);
    hide Winner, Uncertain, Within;
  }

  /** Declaration order, and repetition, have no influence on outcome, basis, reason or evidence. */
  lemma RuleOrderHasNoInfluence(policy: CompiledPolicy, other: CompiledPolicy, ev: EvidenceSet, subject: Did, now: Time)
    requires Compiled(policy) && Compiled(other) && policy.providers == other.providers
    requires RulesWithin(policy.rules, other.rules) && RulesWithin(other.rules, policy.rules)
    ensures var d, d' := Evaluate(policy, ev, subject, now), Evaluate(other, ev, subject, now);
            d.outcome == d'.outcome && d.basis == d'.basis && d.reason == d'.reason && d.disagreements == d'.disagreements &&
            d.evidenceIds == d'.evidenceIds
  {
    ResultsWithin(policy, other, ev, subject, now);
    ResultsWithin(other, policy, ev, subject, now);
    hide Results, Conclude, Within;
    SameConclusion(subject, Results(policy, ev, subject, now), Results(other, ev, subject, now), UsedIds(policy, ev, subject, now));
  }

  // ----- where the guarantee ends -----

  /** A verdict of no match is not protected: an expired label under an outage reads as False, and
      a fresh label that was missed turns the verdict into a quarantine. */
  lemma NoMatchCanBeOverturned()
    ensures exists policy: CompiledPolicy, ev: EvidenceSet, later: EvidenceSet, s: Did, now: Time ::
              Compiled(policy) && Completes(ev, later) &&
              Evaluate(policy, ev, s, now).basis == NoMatch && Evaluate(policy, later, s, now).outcome == Quarantined
  {
    var policy := CompiledPolicy(map["p" := "did:p"], [Rule("r", Quarantine, Label("p", "q", None))]);
    var stale := Observation(Fact("did:p", "did:s", "q", Flag(true), 0, Some(5), false), 0, "");
    var renewed := Observation(Fact("did:p", "did:s", "q", Flag(true), 8, None, false), 9, "");
    var covered := [Coverage("did:p", "did:s", true)];
    assert covered[0] in covered;
    OneLabel(policy, EvidenceSet([stale], []), {stale.fact}, stale.fact, 10);
    OneLabel(policy, EvidenceSet([stale, renewed], covered), {stale.fact, renewed.fact}, renewed.fact, 10);
    assert Completes(EvidenceSet([stale], []), EvidenceSet([stale, renewed], covered));
  }

  lemma OneLabel(policy: CompiledPolicy, ev: EvidenceSet, facts: set<Fact>, latest: Fact, now: Time)
    requires policy == CompiledPolicy(map["p" := "did:p"], [Rule("r", Quarantine, Label("p", "q", None))])
    requires Events(ev, "did:p", "did:s", "q") == facts && Latest(facts) == {latest}
    requires latest.observedAt <= now && !latest.negated && latest.value == Flag(true)
    ensures var d := Evaluate(policy, ev, "did:s", now);
            if latest.expiresAt.Some? && latest.expiresAt.value <= now then d.basis == NoMatch
            else Complete(ev, "did:p", "did:s") ==> d.outcome == Quarantined
  {
    var rs := Results(policy, ev, "did:s", now);
    assert Only({latest}) == latest;
    if latest.expiresAt.Some? && latest.expiresAt.value <= now {
      assert rs[0].truth == False;
      assert Winner(rs) == 0;
    } else if Complete(ev, "did:p", "did:s") {
      assert rs[0].truth == True;
      assert Winner(rs) == 1;
    }
  }
}
