/** The policy evaluator: timestamped observations, per-publisher coverage, and a three-valued
    reading of allow, quarantine and neutral rules.
    Times are integers. A digest is injective, so the digest of an observation is kept as the
    digested value itself: an evidence id IS the fact it identifies. */
module Policy {
  import opened Wrappers

  type Did = string
  type Time = int

  datatype Truth = True | False | Unknown

  /** A JSON value as the evaluator tells values apart. */
  datatype Value = Flag(b: bool) | Number(n: real) | NonFinite | Other

  /** What an evidence id digests: everything but how and when the record was fetched. */
  datatype Fact = Fact(provider: Did, subject: Did, property: string, value: Value,
                       observedAt: Time, expiresAt: Option<Time>, negated: bool)

  datatype Observation = Observation(fact: Fact, retrievedAt: Time, provenance: string)

  datatype Coverage = Coverage(provider: Did, subject: Did, complete: bool)

  datatype EvidenceSet = EvidenceSet(observations: seq<Observation>, coverage: seq<Coverage>)

  datatype Comparison = Eq | Gt | Gte | Lt | Lte

  datatype Predicate =
    | All(children: seq<Predicate>)
    | AnyOf(children: seq<Predicate>)
    | Not(child: Predicate)
    | Label(source: string, tag: string, maxAge: Option<nat>)
    | Measure(source: string, property: string, op: Comparison, rhs: real, maxAge: Option<nat>)
  {
    predicate IsLeaf() {
      Label? || Measure?
    }
  }

  datatype Disposition = Neutral | Quarantine | Allow

  datatype Rule = Rule(name: string, disposition: Disposition, when: Predicate)

  datatype CompiledPolicy = CompiledPolicy(providers: map<string, Did>, rules: seq<Rule>)

  datatype Outcome = Indeterminate | Quarantined | NoJustification

  datatype Basis = UnresolvedPrecedence | AllowRule | QuarantineRule | NoMatch

  datatype Reason = PrecedenceUnresolved | AllowWon | QuarantineMatched | EvidenceExpired | NoRuleMatched

  datatype RuleResult = RuleResult(name: string, disposition: Disposition, truth: Truth, expiryBlocksMatch: bool)

  datatype Decision = Decision(subject: Did, outcome: Outcome, basis: Basis, matches: seq<string>,
                               unresolved: seq<string>, rules: seq<RuleResult>, evidenceIds: set<Fact>,
                               disagreements: bool, reason: Reason)

  /** The flags that travel down a predicate: polarity under `not`, the stricter reading of
      allow rules, and the diagnostic reading that forgives expiry. */
  datatype Mode = Mode(negative: bool, requireCurrent: bool, ignoreExpiry: bool)

  datatype Judgement = Judgement(truth: Truth, ids: set<Fact>)

  // ----- what compilation guarantees about a predicate -----

  predicate WellFormed(node: Predicate, providers: map<string, Did>) {
    match node
    case All(cs) => cs != [] && forall c :: c in cs ==> WellFormed(c, providers)
    case AnyOf(cs) => cs != [] && forall c :: c in cs ==> WellFormed(c, providers)
    case Not(c) => WellFormed(c, providers)
    case Label(s, _, age) => s in providers && age != Some(0)
    case Measure(s, _, _, _, age) => s in providers && age != Some(0)
  }

  predicate Compiled(policy: CompiledPolicy) {
    forall r :: r in policy.rules ==> WellFormed(r.when, policy.providers)
  }

  // ----- evidence at a leaf -----

  predicate Complete(ev: EvidenceSet, provider: Did, subject: Did) {
    exists c :: c in ev.coverage && c.provider == provider && c.subject == subject && c.complete
  }

  function AllFacts(ev: EvidenceSet): set<Fact> {
    set o | o in ev.observations :: o.fact
  }

  function FactsAt(ev: EvidenceSet, provider: Did, subject: Did): set<Fact> {
    set f | f in AllFacts(ev) && f.provider == provider && f.subject == subject
  }

  function Events(ev: EvidenceSet, provider: Did, subject: Did, property: string): set<Fact> {
    set f | f in FactsAt(ev, provider, subject) && f.property == property
  }

  function Latest(facts: set<Fact>): set<Fact> {
    set f | f in facts && forall g :: g in facts ==> g.observedAt <= f.observedAt
  }

  lemma SingletonElement<T>(s: set<T>, x: T, y: T)
    requires |s| == 1 && x in s && y in s
    ensures x == y
  {
    assert |s - {x}| == 0;
  }

  function Only(s: set<Fact>): (f: Fact)
    requires |s| == 1
    ensures s == {f}
  {
    assert s != {};
    assert forall x, y | x in s && y in s :: x == y by {
      forall x, y | x in s && y in s ensures x == y { SingletonElement(s, x, y); }
    }
    var f :| f in s;
    f
  }

  function Property(node: Predicate): string
    requires node.IsLeaf()
  {
    if node.Label? then node.tag else node.property
  }

  /** The earlier of the publisher's expiry and the policy's own maximum age. */
  function Deadline(node: Predicate, f: Fact): Option<Time>
    requires node.IsLeaf()
  {
    match node.maxAge
    case None => f.expiresAt
    case Some(age) =>
      var local := f.observedAt + age;
      match f.expiresAt
      case None => Some(local)
      case Some(e) => Some(if e <= local then e else local)
  }

  predicate Expired(node: Predicate, f: Fact, now: Time)
    requires node.IsLeaf()
  {
    Deadline(node, f).Some? && Deadline(node, f).value <= now
  }

  /** An assertion that lost its standing refutes a leaf, except where its absence could justify
      a consequence and the publisher was not completely read. */
  function Withdrawn(mode: Mode, complete: bool): Truth {
    if (mode.negative || mode.requireCurrent) && !complete then Unknown else False
  }

  function Compare(node: Predicate, value: Value): Truth
    requires node.IsLeaf()
  {
    match node
    case Label(_, _, _) => if value == Flag(true) then True else Unknown
    case Measure(_, _, op, rhs, _) =>
      if !value.Number? then Unknown
      else
        var holds := match op
          case Eq => value.n == rhs
          case Gt => value.n > rhs
          case Gte => value.n >= rhs
          case Lt => value.n < rhs
          case Lte => value.n <= rhs;
        if holds then True else False
  }

  function JudgeLeaf(node: Predicate, facts: set<Fact>, complete: bool, now: Time, mode: Mode): Truth
    requires node.IsLeaf()
  {
    if facts == {} then
      if complete then False else Unknown
    else if |Latest(facts)| != 1 then Unknown
    else
      var f := Only(Latest(facts));
      if f.observedAt > now then Unknown
      else if f.negated then Withdrawn(mode, complete)
      else if Expired(node, f, now) && !mode.ignoreExpiry then Withdrawn(mode, complete)
      else if !complete then Unknown
      else Compare(node, f.value)
  }

  function Leaf(node: Predicate, providers: map<string, Did>, ev: EvidenceSet, subject: Did, now: Time, mode: Mode): Judgement
    requires node.IsLeaf() && WellFormed(node, providers)
  {
    var provider := providers[node.source];
    var facts := Events(ev, provider, subject, Property(node));
    Judgement(JudgeLeaf(node, facts, Complete(ev, provider, subject), now, mode), Latest(facts))
  }

  // ----- predicates -----

  function Invert(t: Truth): Truth {
    match t case True => False case False => True case Unknown => Unknown
  }

  /** `decisive` dominates, then Unknown, then `otherwise`. */
  function Combine(decisive: Truth, otherwise: Truth, rs: seq<Judgement>): Judgement {
    var ids := set i, f | 0 <= i < |rs| && f in rs[i].ids :: f;
    var truth :=
      if exists i :: 0 <= i < |rs| && rs[i].truth == decisive then decisive
      else if exists i :: 0 <= i < |rs| && rs[i].truth == Unknown then Unknown
      else otherwise;
    Judgement(truth, ids)
  }

  function Eval(node: Predicate, providers: map<string, Did>, ev: EvidenceSet, subject: Did, now: Time, mode: Mode): Judgement
    requires WellFormed(node, providers)
  {
    match node
    case All(cs) => Combine(False, True, EvalEach(cs, providers, ev, subject, now, mode))
    case AnyOf(cs) => Combine(True, False, EvalEach(cs, providers, ev, subject, now, mode))
    case Not(c) =>
      var r := Eval(c, providers, ev, subject, now, mode.(negative := !mode.negative));
      Judgement(Invert(r.truth), r.ids)
    case _ =>
      Leaf(node, providers, ev, subject, now, mode)
  }

  function EvalEach(nodes: seq<Predicate>, providers: map<string, Did>, ev: EvidenceSet, subject: Did, now: Time, mode: Mode): seq<Judgement>
    requires forall n :: n in nodes ==> WellFormed(n, providers)
  {
    seq(|nodes|, i requires 0 <= i < |nodes| => Eval(nodes[i], providers, ev, subject, now, mode))
  }

  // ----- rules and precedence -----

  function Rank(d: Disposition): nat {
    match d case Neutral => 0 case Quarantine => 1 case Allow => 2
  }

  function RuleMode(d: Disposition): Mode {
    Mode(false, d == Allow, false)
  }

  function RuleTruth(rule: Rule, providers: map<string, Did>, ev: EvidenceSet, subject: Did, now: Time): Judgement
    requires WellFormed(rule.when, providers)
  {
    Eval(rule.when, providers, ev, subject, now, RuleMode(rule.disposition))
  }

  function Judge(rule: Rule, providers: map<string, Did>, ev: EvidenceSet, subject: Did, now: Time): RuleResult
    requires WellFormed(rule.when, providers)
  {
    var truth := RuleTruth(rule, providers, ev, subject, now).truth;
    var blocked :=
      rule.disposition == Quarantine && truth == False &&
      Eval(rule.when, providers, ev, subject, now, Mode(false, false, true)).truth != False;
    RuleResult(rule.name, rule.disposition, truth, blocked)
  }

  /** The greatest rank among conclusively matched rules; zero when none matched. */
  function Winner(rs: seq<RuleResult>): (w: nat)
    ensures forall i :: 0 <= i < |rs| && rs[i].truth == True ==> Rank(rs[i].disposition) <= w
    ensures w == 0 || exists i :: 0 <= i < |rs| && rs[i].truth == True && Rank(rs[i].disposition) == w
  {
    if rs == [] then 0
    else
      var rest := Winner(rs[1..]);
      if rs[0].truth == True && Rank(rs[0].disposition) > rest then Rank(rs[0].disposition) else rest
  }

  predicate Uncertain(rs: seq<RuleResult>) {
    exists i :: 0 <= i < |rs| && rs[i].truth == Unknown && Rank(rs[i].disposition) > Winner(rs)
  }

  function Results(policy: CompiledPolicy, ev: EvidenceSet, subject: Did, now: Time): seq<RuleResult>
    requires Compiled(policy)
  {
    seq(|policy.rules|, i requires 0 <= i < |policy.rules| => Judge(policy.rules[i], policy.providers, ev, subject, now))
  }

  function UsedIds(policy: CompiledPolicy, ev: EvidenceSet, subject: Did, now: Time): set<Fact>
    requires Compiled(policy)
  {
    set i, f | 0 <= i < |policy.rules| && f in RuleTruth(policy.rules[i], policy.providers, ev, subject, now).ids :: f
  }

  function NamesWith(rs: seq<RuleResult>, t: Truth): seq<string> {
    if rs == [] then []
    else (if rs[0].truth == t then [rs[0].name] else []) + NamesWith(rs[1..], t)
  }

  function Conclude(subject: Did, rs: seq<RuleResult>, ids: set<Fact>): Decision {
    var winner := Winner(rs);
    var uncertain := Uncertain(rs);
    var outcome := if uncertain then Indeterminate else if winner == 1 then Quarantined else NoJustification;
    var basis :=
      if uncertain then UnresolvedPrecedence else if winner == 2 then AllowRule
      else if winner == 1 then QuarantineRule else NoMatch;
    var reason :=
      if uncertain then PrecedenceUnresolved else if winner == 2 then AllowWon
      else if winner == 1 then QuarantineMatched
      else if exists i :: 0 <= i < |rs| && rs[i].expiryBlocksMatch then EvidenceExpired else NoRuleMatched;
    var disagreements :=
      exists i, j ::
        0 <= i < |rs| && 0 <= j < |rs| && rs[i].truth == True && rs[j].truth == True && rs[i].disposition != rs[j].disposition;
    Decision(subject, outcome, basis, NamesWith(rs, True), NamesWith(rs, Unknown), rs, ids, disagreements, reason)
  }

  function Evaluate(policy: CompiledPolicy, ev: EvidenceSet, subject: Did, now: Time): Decision
    requires Compiled(policy)
  {
    Conclude(subject, Results(policy, ev, subject, now), UsedIds(policy, ev, subject, now))
  }

  /** The evaluator's loop: one pass over the rules that accumulates results and used ids. */
  method EvaluateRules(policy: CompiledPolicy, ev: EvidenceSet, subject: Did, now: Time) returns (d: Decision)
    requires Compiled(policy)
    ensures d == Evaluate(policy, ev, subject, now)
  {
    var results: seq<RuleResult> := [];
    var ids: set<Fact> := {};
    for n := 0 to |policy.rules|
      invariant results == Results(policy, ev, subject, now)[..n]
      invariant ids == set i, f | 0 <= i < n && f in RuleTruth(policy.rules[i], policy.providers, ev, subject, now).ids :: f
    {
      var rule := policy.rules[n];
      var judged := RuleTruth(rule, policy.providers, ev, subject, now);
      var expiryBlocksMatch := false;
      if rule.disposition == Quarantine && judged.truth == False {
        var withoutExpiry := Eval(rule.when, policy.providers, ev, subject, now, Mode(false, false, true));
        expiryBlocksMatch := withoutExpiry.truth != False;
      }
      results := results + [RuleResult(rule.name, rule.disposition, judged.truth, expiryBlocksMatch)];
      ids := ids + judged.ids;
    }
    assert results == Results(policy, ev, subject, now);
    d := Conclude(subject, results, ids);
  }
}
