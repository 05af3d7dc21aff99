/** The guided editor: reading a policy document into a few fields, and building a document from them.
    A document stands for its parsed YAML. */
module GuidedPolicy {
  import opened Wrappers
  import opened Policy

  datatype Json = Null | Boolean(b: bool) | Integer(n: int) | Fraction(r: real) | Text(s: string) | Arr(items: seq<Json>) |
                  Obj(fields: map<string, Json>)

  const CORNELL: string := "cornell"
  const CORNELL_DID: string := "did:plc:oubsyca6hhgqhmbbk27lvs7c"
  const BSKY38: string := "bsky38"
  const BSKY38_DID: string := "did:web:bsky38.com"
  const BSKY38_URL: string := "https://bsky38.com/"
  const DISCOVER_URI: string := "at://did:plc:z72i7hdynmk6r22z27h6tvur/app.bsky.feed.generator/whats-hot"
  const MONTHLY: string := "monthly-posts-over-twenty-per-day"
  const DAILY_POSTS: string := "made-over-thirty-posts-yesterday"
  const DAILY_REPLIES: string := "made-over-thirty-replies-yesterday"
  const RULE_NAME: string := "sustained-or-combined-posting"
  const BSKY38_RULE: string := "bsky38-membership"

  datatype SourceType = Feeds | Follows | Timeline | LabeledStream | ExplicitDids | ExternalSnapshot

  /** What the editor's form holds; `subjects` is taken from the document as it is. */
  datatype Guided = Guided(sourceType: SourceType, limit: int, subjects: Option<Json>, monthly: bool, dailyPair: bool)

  datatype Input = Input(sourceType: SourceType, limit: Option<int>, subjects: seq<string>, monthly: bool, dailyPair: bool)

  // ----- looking into a document -----

  function Get(j: Option<Json>, key: string): Option<Json> {
    if j.Some? && j.value.Obj? && key in j.value.fields then Some(j.value.fields[key]) else None
  }

  function At(j: Option<Json>, i: nat): Option<Json> {
    if j.Some? && j.value.Arr? && i < |j.value.items| then Some(j.value.items[i]) else None
  }

  predicate IsText(j: Option<Json>, s: string) {
    j == Some(Text(s))
  }

  predicate HasKeys(j: Option<Json>, count: nat) {
    j.Some? && j.value.Obj? && |j.value.fields| == count
  }

  predicate OnlyKeys(j: Option<Json>, keys: set<string>) {
    j.Some? && j.value.Obj? && j.value.fields.Keys <= keys
  }

  predicate IsList(j: Option<Json>, length: nat) {
    j.Some? && j.value.Arr? && |j.value.items| == length
  }

  predicate Primitive(j: Json) {
    !j.Arr? && !j.Obj?
  }

  /** Strict equality: compound values are never equal to other ones. */
  predicate SameValue(a: Option<Json>, b: Option<Json>) {
    a == b && (a.Some? ==> Primitive(a.value))
  }

  /** A missing or null override layer counts as empty. */
  predicate EmptyLayer(doc: Option<Json>, key: string) {
    Get(doc, key) in {None, Some(Null)} || Get(doc, key) == Some(Arr([]))
  }

  predicate NoOverrides(doc: Option<Json>) {
    EmptyLayer(doc, "exempt") && EmptyLayer(doc, "allow") && EmptyLayer(doc, "keep_muted")
  }

  // ----- the conditions the form can show -----

  predicate IsLeaf(j: Json, tag: string) {
    IsText(Get(Some(j), "source"), CORNELL) && IsText(Get(Some(j), "label"), tag) && HasKeys(Some(j), 2)
  }

  predicate IsDailyPair(j: Json) {
    HasKeys(Some(j), 1) && IsList(Get(Some(j), "all"), 2) &&
    IsLeaf(j.fields["all"].items[0], DAILY_POSTS) && IsLeaf(j.fields["all"].items[1], DAILY_REPLIES)
  }

  predicate IsDisjunction(condition: Json) {
    HasKeys(Some(condition), 1) && Get(Some(condition), "any").Some? && Get(Some(condition), "any").value.Arr?
  }

  function Alternatives(condition: Json): seq<Json> {
    if IsDisjunction(condition) then condition.fields["any"].items else [condition]
  }

  predicate Shown(condition: Json) {
    Alternatives(condition) != [] &&
    forall i :: 0 <= i < |Alternatives(condition)| ==> IsLeaf(Alternatives(condition)[i], MONTHLY) || IsDailyPair(Alternatives(condition)[i])
  }

  predicate ShowsMonthly(condition: Json) {
    exists i :: 0 <= i < |Alternatives(condition)| && IsLeaf(Alternatives(condition)[i], MONTHLY)
  }

  predicate ShowsDailyPair(condition: Json) {
    exists i :: 0 <= i < |Alternatives(condition)| && IsDailyPair(Alternatives(condition)[i])
  }

  function LeafOf(tag: string): Json {
    Obj(map["source" := Text(CORNELL), "label" := Text(tag)])
  }

  const PAIR: Json := Obj(map["all" := Arr([LeafOf(DAILY_POSTS), LeafOf(DAILY_REPLIES)])])

  function BuildAlternatives(monthly: bool, dailyPair: bool): seq<Json> {
    (if monthly then [LeafOf(MONTHLY)] else []) + (if dailyPair then [PAIR] else [])
  }

  /** A single alternative stands for itself. */
  function BuildCondition(monthly: bool, dailyPair: bool): Json
    requires monthly || dailyPair
  {
    var alternatives := BuildAlternatives(monthly, dailyPair);
    if |alternatives| == 1 then alternatives[0] else Obj(map["any" := Arr(alternatives)])
  }

  // ----- what a condition means -----

  /** Conditions over labels, as compilation reads them; measurements are not expressible here. */
  function Parse(j: Json): Option<Predicate>
    decreases j, 0
  {
    if !j.Obj? then None
    else if "all" in j.fields && |j.fields| == 1 && j.fields["all"].Arr? && j.fields["all"].items != [] then
      (match ParseEach(j.fields["all"].items, |j.fields["all"].items|) case Some(cs) => Some(All(cs)) case None => None)
    else if "any" in j.fields && |j.fields| == 1 && j.fields["any"].Arr? && j.fields["any"].items != [] then
      (match ParseEach(j.fields["any"].items, |j.fields["any"].items|) case Some(cs) => Some(AnyOf(cs)) case None => None)
    else if "not" in j.fields && |j.fields| == 1 then
      (match Parse(j.fields["not"]) case Some(c) => Some(Not(c)) case None => None)
    else if |j.fields| == 2 && "source" in j.fields && "label" in j.fields && j.fields["source"].Text? && j.fields["label"].Text? then
      Some(Label(j.fields["source"].s, j.fields["label"].s, None))
    else None
  }

  function ParseEach(js: seq<Json>, n: nat): (r: Option<seq<Predicate>>)
    requires n <= |js|
    ensures r.Some? ==> |r.value| == n
    decreases js, n
  {
    if n == 0 then Some([])
    else
      match (ParseEach(js, n - 1), Parse(js[n - 1]))
      case (Some(cs), Some(c)) => Some(cs + [c])
      case _ => None
  }

  const MONTHLY_LEAF := Label(CORNELL, MONTHLY, None)
  const PAIR_NODE := All([Label(CORNELL, DAILY_POSTS, None), Label(CORNELL, DAILY_REPLIES, None)])

  lemma LeafParses(j: Json, tag: string)
    requires IsLeaf(j, tag)
    ensures Parse(j) == Some(Label(CORNELL, tag, None))
  {
    assert j.fields.Keys >= {"source", "label"} && |j.fields.Keys| == 2;
    KeysAre(j.fields, "source", "label");
    assert "all" != "source" && "any" != "source" && "not" != "source" && "label" != "all" && "label" != "any" && "label" != "not";
  }

  lemma KeysAre(m: map<string, Json>, a: string, b: string)
    requires a in m && b in m && a != b && |m| == 2
    ensures m.Keys == {a, b}
  {
    assert |m.Keys - {a, b}| == 0;
  }

  lemma OnlyKey(m: map<string, Json>, a: string)
    requires a in m && |m| == 1
    ensures m.Keys == {a}
  {
    assert |m.Keys - {a}| == 0;
  }

  lemma PairParses(j: Json)
    requires IsDailyPair(j)
    ensures Parse(j) == Some(PAIR_NODE)
  {
    var items := j.fields["all"].items;
    LeafParses(items[0], DAILY_POSTS);
    LeafParses(items[1], DAILY_REPLIES);
    var posts, replies := Label(CORNELL, DAILY_POSTS, None), Label(CORNELL, DAILY_REPLIES, None);
    assert ParseEach(items, 0) == Some([]);
    assert [] + [posts] == [posts] && [posts] + [replies] == [posts, replies];
    assert ParseEach(items, 1) == Some([Label(CORNELL, DAILY_POSTS, None)]);
    assert ParseEach(items, 2) == Some([Label(CORNELL, DAILY_POSTS, None), Label(CORNELL, DAILY_REPLIES, None)]);
  }

  /** Each shown alternative is one of the two conditions, and parses to it. */
  lemma {:induction false} AlternativesParse(js: seq<Json>, n: nat)
    requires n <= |js| && forall i :: 0 <= i < n ==> IsLeaf(js[i], MONTHLY) || IsDailyPair(js[i])
    ensures ParseEach(js, n).Some?
    ensures forall i :: 0 <= i < n ==> ParseEach(js, n).value[i] == if IsLeaf(js[i], MONTHLY) then MONTHLY_LEAF else PAIR_NODE
  {
    if n > 0 {
      AlternativesParse(js, n - 1);
      if IsLeaf(js[n - 1], MONTHLY) { LeafParses(js[n - 1], MONTHLY); } else { PairParses(js[n - 1]); }
      hide IsLeaf, IsDailyPair, Parse;
    }
  }

  lemma NotBoth(j: Json)
    requires IsLeaf(j, MONTHLY)
    ensures !IsDailyPair(j)
  {
  }

  /** Combining does not depend on the order or the repetition of its parts. */
  lemma CombineSame(decisive: Truth, otherwise: Truth, rs: seq<Judgement>, qs: seq<Judgement>)
    requires forall r :: r in rs <==> r in qs
    ensures Combine(decisive, otherwise, rs) == Combine(decisive, otherwise, qs)
  {
    forall i | 0 <= i < |rs| ensures rs[i] in qs {}
    forall i | 0 <= i < |qs| ensures qs[i] in rs {}
    var a, b := set i, f | 0 <= i < |rs| && f in rs[i].ids :: f, set i, f | 0 <= i < |qs| && f in qs[i].ids :: f;
    forall f | f in a ensures f in b {
      var i :| 0 <= i < |rs| && f in rs[i].ids;
      var k :| 0 <= k < |qs| && qs[k] == rs[i];
    }
    forall f | f in b ensures f in a {
      var i :| 0 <= i < |qs| && f in qs[i].ids;
      var k :| 0 <= k < |rs| && rs[k] == qs[i];
    }
    assert a == b;
  }

  /** A condition on its own is the disjunction of itself. */
  lemma SingleAlternative(r: Judgement)
    ensures Combine(True, False, [r]) == r
  {
    var ids := set i, f | 0 <= i < |[r]| && f in [r][i].ids :: f;
    forall f | f in r.ids ensures f in ids { assert f in [r][0].ids; }
    assert ids == r.ids;
    match r.truth
    case True => assert [r][0].truth == True;
    case Unknown => assert [r][0].truth == Unknown;
    case False =>
  }

  function Present(monthly: bool, dailyPair: bool, m: Judgement, p: Judgement): seq<Judgement> {
    (if monthly then [m] else []) + (if dailyPair then [p] else [])
  }

  lemma OneShown(c: Json)
    requires Shown(c) && Alternatives(c) == [c]
    ensures ShowsMonthly(c) <==> IsLeaf(c, MONTHLY)
    ensures ShowsDailyPair(c) <==> IsDailyPair(c)
    ensures Parse(c) == Some(if IsLeaf(c, MONTHLY) then MONTHLY_LEAF else PAIR_NODE)
    ensures !(IsLeaf(c, MONTHLY) && IsDailyPair(c)) && (IsLeaf(c, MONTHLY) || IsDailyPair(c))
  {
    assert [c][0] == c;
    assert IsLeaf(Alternatives(c)[0], MONTHLY) || IsDailyPair(Alternatives(c)[0]);
    if IsLeaf(c, MONTHLY) { LeafParses(c, MONTHLY); NotBoth(c); } else { PairParses(c); }
    hide IsLeaf, IsDailyPair, Parse;
  }

  lemma AnyParses(c: Json)
    requires c.Obj? && c.fields.Keys == {"any"} && c.fields["any"].Arr? && c.fields["any"].items != []
    requires ParseEach(c.fields["any"].items, |c.fields["any"].items|).Some?
    ensures Parse(c) == Some(AnyOf(ParseEach(c.fields["any"].items, |c.fields["any"].items|).value))
  {
    assert "all" !in c.fields && |c.fields| == |c.fields.Keys| == 1;
  }

  lemma LeavesWellFormed(providers: map<string, Did>)
    requires CORNELL in providers
    ensures WellFormed(MONTHLY_LEAF, providers) && WellFormed(PAIR_NODE, providers)
  {
  }

  predicate Matches(js: seq<Json>, nodes: seq<Predicate>) {
    |nodes| == |js| &&
    forall i :: 0 <= i < |js| ==>
      (IsLeaf(js[i], MONTHLY) || IsDailyPair(js[i])) && nodes[i] == if IsLeaf(js[i], MONTHLY) then MONTHLY_LEAF else PAIR_NODE
  }

  lemma NodesWellFormed(js: seq<Json>, nodes: seq<Predicate>, providers: map<string, Did>)
    requires js != [] && Matches(js, nodes) && CORNELL in providers
    ensures forall c :: c in nodes ==> WellFormed(c, providers)
    ensures WellFormed(AnyOf(nodes), providers)
  {
    hide IsLeaf, IsDailyPair;
    LeavesWellFormed(providers);
  }

  lemma NodesMean(js: seq<Json>, nodes: seq<Predicate>, rs: seq<Judgement>, m: Judgement, p: Judgement)
    requires js != [] && Matches(js, nodes) && |rs| == |js|
    requires forall i :: 0 <= i < |js| ==> rs[i] == if IsLeaf(js[i], MONTHLY) then m else p
    ensures var monthly := exists i :: 0 <= i < |js| && IsLeaf(js[i], MONTHLY);
            var dailyPair := exists i :: 0 <= i < |js| && IsDailyPair(js[i]);
            (monthly || dailyPair) && forall r :: r in rs <==> r in Present(monthly, dailyPair, m, p)
  {
    hide IsLeaf, IsDailyPair;
    var monthly := exists i :: 0 <= i < |js| && IsLeaf(js[i], MONTHLY);
    var dailyPair := exists i :: 0 <= i < |js| && IsDailyPair(js[i]);
    assert IsLeaf(js[0], MONTHLY) || IsDailyPair(js[0]);
    forall i | 0 <= i < |js| && IsLeaf(js[i], MONTHLY) ensures !IsDailyPair(js[i]) { NotBoth(js[i]); }
    forall r | r in Present(monthly, dailyPair, m, p) ensures r in rs {
      if r == m && monthly {
        var i :| 0 <= i < |js| && IsLeaf(js[i], MONTHLY);
        assert rs[i] == m;
      } else {
        var i :| 0 <= i < |js| && IsDailyPair(js[i]);
        assert rs[i] == p;
      }
    }
    forall r | r in rs ensures r in Present(monthly, dailyPair, m, p) {
      var i :| 0 <= i < |rs| && rs[i] == r;
      assert IsLeaf(js[i], MONTHLY) || IsDailyPair(js[i]);
    }
  }

  lemma DisjunctionMeans(c: Json, providers: map<string, Did>, ev: EvidenceSet, subject: Did, now: Time, mode: Mode)
    requires Shown(c) && IsDisjunction(c) && CORNELL in providers
    ensures WellFormed(MONTHLY_LEAF, providers) && WellFormed(PAIR_NODE, providers)
    ensures Parse(c).Some? && WellFormed(Parse(c).value, providers) && (ShowsMonthly(c) || ShowsDailyPair(c))
    ensures Eval(Parse(c).value, providers, ev, subject, now, mode) ==
            Combine(True, False, Present(ShowsMonthly(c), ShowsDailyPair(c),
                                         Eval(MONTHLY_LEAF, providers, ev, subject, now, mode),
                                         Eval(PAIR_NODE, providers, ev, subject, now, mode)))
  {
    hide IsLeaf, IsDailyPair, Combine;
    LeavesWellFormed(providers);
    var js := Alternatives(c);
    OnlyKey(c.fields, "any");
    AlternativesParse(js, |js|);
    var nodes := ParseEach(js, |js|).value;
    AnyParses(c);
    NodesWellFormed(js, nodes, providers);
    var m, p := Eval(MONTHLY_LEAF, providers, ev, subject, now, mode), Eval(PAIR_NODE, providers, ev, subject, now, mode);
    var rs := EvalEach(nodes, providers, ev, subject, now, mode);
    NodesMean(js, nodes, rs, m, p);
    CombineSame(True, False, rs, Present(ShowsMonthly(c), ShowsDailyPair(c), m, p));
  }

  lemma SingleMeans(c: Json, providers: map<string, Did>, ev: EvidenceSet, subject: Did, now: Time, mode: Mode)
    requires Shown(c) && !IsDisjunction(c) && CORNELL in providers
    ensures WellFormed(MONTHLY_LEAF, providers) && WellFormed(PAIR_NODE, providers)
    ensures Parse(c).Some? && WellFormed(Parse(c).value, providers) && (ShowsMonthly(c) || ShowsDailyPair(c))
    ensures Eval(Parse(c).value, providers, ev, subject, now, mode) ==
            Combine(True, False, Present(ShowsMonthly(c), ShowsDailyPair(c),
                                         Eval(MONTHLY_LEAF, providers, ev, subject, now, mode),
                                         Eval(PAIR_NODE, providers, ev, subject, now, mode)))
  {
    hide IsLeaf, IsDailyPair, Combine, Eval;
    LeavesWellFormed(providers);
    OneShown(c);
    var m, p := Eval(MONTHLY_LEAF, providers, ev, subject, now, mode), Eval(PAIR_NODE, providers, ev, subject, now, mode);
    assert Present(true, false, m, p) == [m] && Present(false, true, m, p) == [p];
    SingleAlternative(m);
    SingleAlternative(p);
  }

  /** What a shown condition means: the disjunction of the conditions the form shows as present. */
  lemma ShownMeans(c: Json, providers: map<string, Did>, ev: EvidenceSet, subject: Did, now: Time, mode: Mode)
    requires Shown(c) && CORNELL in providers
    ensures WellFormed(MONTHLY_LEAF, providers) && WellFormed(PAIR_NODE, providers)
    ensures Parse(c).Some? && WellFormed(Parse(c).value, providers) && (ShowsMonthly(c) || ShowsDailyPair(c))
    ensures Eval(Parse(c).value, providers, ev, subject, now, mode) ==
            Combine(True, False, Present(ShowsMonthly(c), ShowsDailyPair(c),
                                         Eval(MONTHLY_LEAF, providers, ev, subject, now, mode),
                                         Eval(PAIR_NODE, providers, ev, subject, now, mode)))
  {
    if IsDisjunction(c) { DisjunctionMeans(c, providers, ev, subject, now, mode); } else { SingleMeans(c, providers, ev, subject, now, mode); }
  }

  // ----- the whole document -----

  function SourceName(t: SourceType): string {
    match t
    case Feeds => "feeds" case Follows => "follows" case Timeline => "timeline" case LabeledStream => "labeled_stream"
    case ExplicitDids => "explicit_dids" case ExternalSnapshot => "external_snapshot"
  }

  predicate IsBsky38(doc: Option<Json>) {
    var providers, sources, rules := Get(doc, "providers"), Get(doc, "sources"), Get(doc, "rules");
    var provider, source, rule := Get(providers, BSKY38), At(sources, 0), At(rules, 0);
    HasKeys(providers, 1) && IsText(Get(provider, "type"), "external_list") && IsText(Get(provider, "did"), BSKY38_DID) &&
    HasKeys(provider, 2) && IsList(sources, 1) && IsText(Get(source, "type"), "external_snapshot") &&
    IsText(Get(source, "provider"), BSKY38) && IsText(Get(source, "url"), BSKY38_URL) && Get(source, "limit") == Some(Integer(38)) &&
    IsList(rules, 1) && IsText(Get(rule, "name"), BSKY38_RULE) && IsText(Get(rule, "disposition"), "quarantine") &&
    IsText(Get(Get(rule, "when"), "source"), BSKY38) && IsText(Get(Get(rule, "when"), "label"), "member") && NoOverrides(doc)
  }

  predicate IsCornell(doc: Option<Json>) {
    var providers := Get(doc, "providers");
    HasKeys(providers, 1) && IsText(Get(Get(providers, CORNELL), "type"), "atproto_labels") &&
    IsText(Get(Get(providers, CORNELL), "did"), CORNELL_DID) && HasKeys(Get(providers, CORNELL), 2)
  }

  predicate IsFeeds(sources: Option<Json>) {
    IsList(sources, 2) && IsText(Get(At(sources, 0), "type"), "feed_exposure") && IsText(Get(At(sources, 0), "surface"), "timeline") &&
    IsText(Get(At(sources, 1), "type"), "feed_exposure") && IsText(Get(At(sources, 1), "surface"), "generator")
  }

  predicate PlainFeeds(sources: Option<Json>) {
    OnlyKeys(At(sources, 0), {"type", "surface", "limit", "followed"}) &&
    OnlyKeys(At(sources, 1), {"type", "surface", "feed_uri", "limit", "followed"}) &&
    SameValue(Get(At(sources, 0), "limit"), Get(At(sources, 1), "limit")) &&
    IsText(Get(At(sources, 0), "followed"), "review") && IsText(Get(At(sources, 1), "followed"), "review") &&
    IsText(Get(At(sources, 1), "feed_uri"), DISCOVER_URI)
  }

  /** The single account source of a kind the form offers. */
  function SingleSource(sources: Option<Json>): Option<SourceType> {
    var kind := Get(At(sources, 0), "type");
    if !IsList(sources, 1) then None
    else if IsText(kind, "follows") then Some(Follows)
    else if IsText(kind, "timeline") then Some(Timeline)
    else if IsText(kind, "labeled_stream") then Some(LabeledStream)
    else if IsText(kind, "explicit_dids") then Some(ExplicitDids)
    else None
  }

  predicate PlainSource(source: Option<Json>, kind: SourceType) {
    OnlyKeys(source, if kind == LabeledStream then {"type", "provider", "limit"}
                     else if kind == ExplicitDids then {"type", "dids"} else {"type", "limit"}) &&
    (kind == LabeledStream ==> IsText(Get(source, "provider"), CORNELL))
  }

  function SourceOf(sources: Option<Json>): Option<SourceType> {
    if IsFeeds(sources) then (if PlainFeeds(sources) then Some(Feeds) else None)
    else
      match SingleSource(sources)
      case Some(kind) => if PlainSource(At(sources, 0), kind) then Some(kind) else None
      case None => None
  }

  predicate IsGuidedRule(rules: Option<Json>) {
    IsList(rules, 1) && IsText(Get(At(rules, 0), "name"), RULE_NAME) && IsText(Get(At(rules, 0), "disposition"), "quarantine")
  }

  function LimitOf(source: Option<Json>): int {
    var limit := Get(source, "limit");
    if limit.Some? && limit.value.Integer? then limit.value.n else 500
  }

  /** The reader: None where it says the document is not supported. */
  function Read(doc: Json): Option<Guided> {
    var d := Some(doc);
    var sources, rules := Get(d, "sources"), Get(d, "rules");
    var condition := Get(At(rules, 0), "when");
    if Get(d, "attention").Some? then None
    else if IsBsky38(d) then Some(Guided(ExternalSnapshot, 38, Some(Arr([])), false, false))
    else if !IsCornell(d) || SourceOf(sources).None? || !IsGuidedRule(rules) || !NoOverrides(d) then None
    else if condition.None? || !Shown(condition.value) then None
    else
      var kind := SourceOf(sources).value;
      Some(Guided(kind, LimitOf(At(sources, 0)), if kind == ExplicitDids then Get(At(sources, 0), "dids") else Some(Arr([])),
                  ShowsMonthly(condition.value), ShowsDailyPair(condition.value)))
  }

  // ----- building -----

  function Texts(names: seq<string>): seq<Json> {
    seq(|names|, i requires 0 <= i < |names| => Text(names[i]))
  }

  function Ceiling(kind: SourceType): int {
    if kind == Feeds then 500 else if kind == Timeline then 1000 else 5000
  }

  predicate IsDid(name: string) {
    "did:" <= name
  }

  predicate Buildable(input: Input) {
    (input.sourceType != ExplicitDids ==> input.limit.Some? && 1 <= input.limit.value <= Ceiling(input.sourceType)) &&
    (input.sourceType == ExplicitDids ==> input.subjects != [] && forall i :: 0 <= i < |input.subjects| ==> IsDid(input.subjects[i])) &&
    (input.sourceType == ExternalSnapshot || input.monthly || input.dailyPair)
  }

  function BuildSources(input: Input): seq<Json>
    requires Buildable(input)
  {
    match input.sourceType
    case Feeds =>
      [Obj(map["type" := Text("feed_exposure"), "surface" := Text("timeline"), "limit" := Integer(input.limit.value),
               "followed" := Text("review")]),
       Obj(map["type" := Text("feed_exposure"), "surface" := Text("generator"), "feed_uri" := Text(DISCOVER_URI),
               "limit" := Integer(input.limit.value), "followed" := Text("review")])]
    case LabeledStream =>
      [Obj(map["type" := Text("labeled_stream"), "provider" := Text(CORNELL), "limit" := Integer(input.limit.value)])]
    case ExplicitDids => [Obj(map["type" := Text("explicit_dids"), "dids" := Arr(Texts(input.subjects))])]
    case ExternalSnapshot =>
      [Obj(map["type" := Text("external_snapshot"), "provider" := Text(BSKY38), "url" := Text(BSKY38_URL), "limit" := Integer(38)])]
    case _ => [Obj(map["type" := Text(SourceName(input.sourceType)), "limit" := Integer(input.limit.value)])]
  }

  function Document(account: string, alias: string, kind: string, did: string, sources: seq<Json>, name: string, condition: Json): Json {
    Obj(map["version" := Integer(1), "account" := Text(account),
            "providers" := Obj(map[alias := Obj(map["type" := Text(kind), "did" := Text(did)])]),
            "sources" := Arr(sources),
            "rules" := Arr([Obj(map["name" := Text(name), "disposition" := Text("quarantine"), "when" := condition])]),
            "exempt" := Arr([]), "allow" := Arr([]), "keep_muted" := Arr([])])
  }

  /** The builder: None where it refuses the form. */
  function Build(account: string, input: Input): Option<Json> {
    if !Buildable(input) then None
    else if input.sourceType == ExternalSnapshot then
      Some(Document(account, BSKY38, "external_list", BSKY38_DID, BuildSources(input), BSKY38_RULE,
                    Obj(map["source" := Text(BSKY38), "label" := Text("member")])))
    else
      Some(Document(account, CORNELL, "atproto_labels", CORNELL_DID, BuildSources(input), RULE_NAME,
                    BuildCondition(input.monthly, input.dailyPair)))
  }

  // ----- reading back what was built -----

  lemma BuiltConditionIsShown(monthly: bool, dailyPair: bool)
    requires monthly || dailyPair
    ensures Shown(BuildCondition(monthly, dailyPair))
    ensures ShowsMonthly(BuildCondition(monthly, dailyPair)) <==> monthly
    ensures ShowsDailyPair(BuildCondition(monthly, dailyPair)) <==> dailyPair
  {
    var js := BuildAlternatives(monthly, dailyPair);
    LeafIsLeaf(MONTHLY);
    PairIsPair();
    NotBoth(LeafOf(MONTHLY));
    PairIsNoLeaf();
    assert Alternatives(BuildCondition(monthly, dailyPair)) == js by {
      hide IsLeaf, IsDailyPair;
      BuiltAlternatives(monthly, dailyPair);
    }
    hide IsLeaf, IsDailyPair, Alternatives, BuildCondition;
    if monthly { assert js[0] == LeafOf(MONTHLY); }
    if dailyPair { assert js[|js| - 1] == PAIR; }
  }

  lemma BuiltAlternatives(monthly: bool, dailyPair: bool)
    requires monthly || dailyPair
    ensures Alternatives(BuildCondition(monthly, dailyPair)) == BuildAlternatives(monthly, dailyPair)
  {
    var js := BuildAlternatives(monthly, dailyPair);
    if |js| == 1 {
      assert js == [js[0]];
      assert "any" != "all" && "any" != "source" && "any" != "label";
      assert "any" !in LeafOf(MONTHLY).fields && "any" !in PAIR.fields;
    } else {
      var fields := map["any" := Arr(js)];
      assert fields.Keys == {"any"};
      assert |fields| == 1;
    }
  }

  lemma LeafIsLeaf(tag: string)
    ensures IsLeaf(LeafOf(tag), tag)
  {
    var fields := map["source" := Text(CORNELL), "label" := Text(tag)];
    assert "source" != "label";
    assert fields.Keys == {"source", "label"};
    assert |fields| == 2;
  }

  lemma PairIsPair()
    ensures IsDailyPair(PAIR)
  {
    LeafIsLeaf(DAILY_POSTS);
    LeafIsLeaf(DAILY_REPLIES);
    assert PAIR.fields.Keys == {"all"};
    assert |PAIR.fields| == 1;
  }

  lemma PairIsNoLeaf()
    ensures !IsLeaf(PAIR, MONTHLY)
  {
    assert "source" != "all";
  }

  function ProviderSpec(kind: string, did: string): Json {
    Obj(map["type" := Text(kind), "did" := Text(did)])
  }

  function RuleSpec(name: string, condition: Json): Json {
    Obj(map["name" := Text(name), "disposition" := Text("quarantine"), "when" := condition])
  }

  lemma DocumentParts(account: string, alias: string, kind: string, did: string, sources: seq<Json>, name: string, condition: Json)
    ensures var d := Some(Document(account, alias, kind, did, sources, name, condition));
            Get(d, "attention").None? && Get(d, "providers") == Some(Obj(map[alias := ProviderSpec(kind, did)])) &&
            Get(d, "sources") == Some(Arr(sources)) && Get(d, "rules") == Some(Arr([RuleSpec(name, condition)])) && NoOverrides(d)
  {
    var d := Document(account, alias, kind, did, sources, name, condition);
    assert "version"[0] == 'v' && "account"[0] == 'a' && "sources"[0] == 's' && "exempt"[0] == 'e' && "allow"[1] == 'l';
    assert "rules"[0] == 'r' && "allow"[0] == 'a' && "attention"[1] == 't';
    assert "attention" !in d.fields;
    assert d.fields["exempt"] == Arr([]) && d.fields["allow"] == Arr([]) && d.fields["keep_muted"] == Arr([]);
    assert d.fields["rules"] == Arr([RuleSpec(name, condition)]);
    assert d.fields["sources"] == Arr(sources);
    assert d.fields["providers"] == Obj(map[alias := ProviderSpec(kind, did)]);
  }

  lemma ProviderParts(alias: string, kind: string, did: string)
    ensures var p := Some(Obj(map[alias := ProviderSpec(kind, did)]));
            HasKeys(p, 1) && Get(p, alias) == Some(ProviderSpec(kind, did)) && HasKeys(Get(p, alias), 2) &&
            IsText(Get(Get(p, alias), "type"), kind) && IsText(Get(Get(p, alias), "did"), did)
  {
    var fields := map[alias := ProviderSpec(kind, did)];
    assert fields.Keys == {alias};
    assert |fields| == 1;
    var spec := map["type" := Text(kind), "did" := Text(did)];
    assert "type" != "did";
    assert spec.Keys == {"type", "did"};
    assert |spec| == 2;
  }

  lemma RuleParts(name: string, condition: Json)
    ensures var rules := Some(Arr([RuleSpec(name, condition)]));
            IsList(rules, 1) && IsText(Get(At(rules, 0), "name"), name) && IsText(Get(At(rules, 0), "disposition"), "quarantine") &&
            Get(At(rules, 0), "when") == Some(condition)
  {
    assert "name"[0] == 'n' && "when"[0] == 'w';
    var r := RuleSpec(name, condition);
    assert r.fields["name"] == Text(name);
  }

  lemma FeedsAreRead(limit: int)
    requires 1 <= limit <= 500
    ensures var sources := Some(Arr(BuildSources(Input(Feeds, Some(limit), [], true, true))));
            SourceOf(sources) == Some(Feeds) && LimitOf(At(sources, 0)) == limit
  {
    var first := map["type" := Text("feed_exposure"), "surface" := Text("timeline"), "limit" := Integer(limit), "followed" := Text("review")];
    var second := map["type" := Text("feed_exposure"), "surface" := Text("generator"), "feed_uri" := Text(DISCOVER_URI),
                      "limit" := Integer(limit), "followed" := Text("review")];
    assert "followed"[1] == 'o' && "feed_uri"[1] == 'e';
    assert first.Keys == {"type", "surface", "limit", "followed"};
    assert second.Keys == {"type", "surface", "feed_uri", "limit", "followed"};
    assert first["limit"] == Integer(limit) == second["limit"];
    assert second["feed_uri"] == Text(DISCOVER_URI);
  }

  lemma SingleSourcesAreRead(input: Input)
    requires Buildable(input) && input.sourceType != Feeds && input.sourceType != ExternalSnapshot
    ensures var sources := Some(Arr(BuildSources(input)));
            SourceOf(sources) == Some(input.sourceType) &&
            LimitOf(At(sources, 0)) == (if input.sourceType == ExplicitDids then 500 else input.limit.value) &&
            (input.sourceType == ExplicitDids ==> Get(At(sources, 0), "dids") == Some(Arr(Texts(input.subjects))))
  {
    var source := BuildSources(input)[0];
    assert "dids"[0] == 'd' && "type"[0] == 't' && "follows"[0] == 'f' && "timeline"[0] == 't';
    match input.sourceType
    case LabeledStream => assert source.fields.Keys == {"type", "provider", "limit"};
    case ExplicitDids => assert source.fields.Keys == {"type", "dids"};
    case Follows => assert source.fields.Keys == {"type", "limit"};
    case Timeline => assert source.fields.Keys == {"type", "limit"};
    case _ =>
  }

  lemma SourcesAreRead(input: Input)
    requires Buildable(input) && input.sourceType != ExternalSnapshot
    ensures var sources := Some(Arr(BuildSources(input)));
            SourceOf(sources) == Some(input.sourceType) &&
            LimitOf(At(sources, 0)) == (if input.sourceType == ExplicitDids then 500 else input.limit.value) &&
            (input.sourceType == ExplicitDids ==> Get(At(sources, 0), "dids") == Some(Arr(Texts(input.subjects))))
  {
    if input.sourceType == Feeds { FeedsAreRead(input.limit.value); } else { SingleSourcesAreRead(input); }
  }

  /** What the form keeps of an input; an explicit list has no limit, the external snapshot no conditions. */
  function Represented(input: Input): Guided {
    if input.sourceType == ExternalSnapshot then Guided(ExternalSnapshot, 38, Some(Arr([])), false, false)
    else Guided(input.sourceType, if input.sourceType == ExplicitDids || input.limit.None? then 500 else input.limit.value,
                Some(Arr(if input.sourceType == ExplicitDids then Texts(input.subjects) else [])), input.monthly, input.dailyPair)
  }

  lemma CornellIsNotBsky38(doc: Option<Json>)
    requires IsCornell(doc)
    ensures !IsBsky38(doc)
  {
    assert CORNELL[0] == 'c' && BSKY38[0] == 'b';
    if IsBsky38(doc) {
      OnlyKey(Get(doc, "providers").value.fields, CORNELL);
    }
  }

  lemma ExternalParts(input: Input)
    requires Buildable(input) && input.sourceType == ExternalSnapshot
    ensures var sources := Some(Arr(BuildSources(input))); var source := At(sources, 0);
            IsList(sources, 1) && IsText(Get(source, "type"), "external_snapshot") && IsText(Get(source, "provider"), BSKY38) &&
            IsText(Get(source, "url"), BSKY38_URL) && Get(source, "limit") == Some(Integer(38))
    ensures var condition := Some(Obj(map["source" := Text(BSKY38), "label" := Text("member")]));
            IsText(Get(condition, "source"), BSKY38) && IsText(Get(condition, "label"), "member")
  {
    assert "type"[0] == 't' && "url"[0] == 'u' && "limit"[0] == 'l' && "label"[0] == 'l' && "provider"[0] == 'p';
  }

  lemma ExternalIsRead(account: string, input: Input)
    requires Buildable(input) && input.sourceType == ExternalSnapshot
    ensures Read(Build(account, input).value) == Some(Represented(input))
  {
    hide Document, NoOverrides, ProviderSpec, RuleSpec, BuildSources, IsCornell, SourceOf, Shown;
    var condition := Obj(map["source" := Text(BSKY38), "label" := Text("member")]);
    DocumentParts(account, BSKY38, "external_list", BSKY38_DID, BuildSources(input), BSKY38_RULE, condition);
    ProviderParts(BSKY38, "external_list", BSKY38_DID);
    RuleParts(BSKY38_RULE, condition);
    ExternalParts(input);
    assert IsBsky38(Some(Document(account, BSKY38, "external_list", BSKY38_DID, BuildSources(input), BSKY38_RULE, condition)));
  }

  /** Reading a built document returns every field the form represents. */
  lemma BuiltDocumentsAreReadBack(account: string, input: Input)
    requires Build(account, input).Some?
    ensures Read(Build(account, input).value) == Some(Represented(input))
  {
    if input.sourceType == ExternalSnapshot {
      ExternalIsRead(account, input);
    } else {
      BuiltConditionIsShown(input.monthly, input.dailyPair);
      CornellDocumentIsRead(account, input);
    }
  }

  lemma CornellDocumentIsRead(account: string, input: Input)
    requires Buildable(input) && input.sourceType != ExternalSnapshot
    requires Shown(BuildCondition(input.monthly, input.dailyPair))
    ensures Read(Build(account, input).value) == Some(Represented(input))
  {
    hide Document, NoOverrides, ProviderSpec, RuleSpec, BuildSources, SourceOf, LimitOf, Shown, ShowsMonthly, ShowsDailyPair, IsBsky38;
    var condition, sources := BuildCondition(input.monthly, input.dailyPair), BuildSources(input);
    var d := Some(Document(account, CORNELL, "atproto_labels", CORNELL_DID, sources, RULE_NAME, condition));
    DocumentParts(account, CORNELL, "atproto_labels", CORNELL_DID, sources, RULE_NAME, condition);
    ProviderParts(CORNELL, "atproto_labels", CORNELL_DID);
    RuleParts(RULE_NAME, condition);
    SourcesAreRead(input);
    BuiltConditionIsShown(input.monthly, input.dailyPair);
    assert IsCornell(d);
    CornellIsNotBsky38(d);
  }

  // ----- editing preserves meaning -----

  /** Compilation of the documents the form can hold: one publisher and one quarantine rule over labels. */
  function CompileOne(doc: Json): Option<CompiledPolicy> {
    var providers, rule := Get(Some(doc), "providers"), At(Get(Some(doc), "rules"), 0);
    var did, name, condition := Get(Get(providers, CORNELL), "did"), Get(rule, "name"), Get(rule, "when");
    if did.Some? && did.value.Text? && name.Some? && name.value.Text? && condition.Some? && Parse(condition.value).Some? then
      Some(CompiledPolicy(map[CORNELL := did.value.s], [Rule(name.value.s, Quarantine, Parse(condition.value).value)]))
    else None
  }

  /** Two shown conditions with the same boxes ticked judge every subject alike, in every mode. */
  lemma SameBoxesSameMeaning(c: Json, e: Json, providers: map<string, Did>, ev: EvidenceSet, subject: Did, now: Time, mode: Mode)
    requires Shown(c) && Shown(e) && CORNELL in providers
    requires ShowsMonthly(c) == ShowsMonthly(e) && ShowsDailyPair(c) == ShowsDailyPair(e)
    ensures Parse(c).Some? && Parse(e).Some? && WellFormed(Parse(c).value, providers) && WellFormed(Parse(e).value, providers)
    ensures Eval(Parse(c).value, providers, ev, subject, now, mode) == Eval(Parse(e).value, providers, ev, subject, now, mode)
  {
    hide Shown, ShowsMonthly, ShowsDailyPair, Parse, Eval, Combine, WellFormed;
    ShownMeans(c, providers, ev, subject, now, mode);
    ShownMeans(e, providers, ev, subject, now, mode);
  }

  lemma ReadCompiles(doc: Json)
    requires Read(doc).Some? && Read(doc).value.sourceType != ExternalSnapshot
    ensures var condition := Get(At(Get(Some(doc), "rules"), 0), "when");
            condition.Some? && Shown(condition.value) && Parse(condition.value).Some? &&
            CompileOne(doc) == Some(CompiledPolicy(map[CORNELL := CORNELL_DID], [Rule(RULE_NAME, Quarantine, Parse(condition.value).value)])) &&
            Read(doc).value.monthly == ShowsMonthly(condition.value) && Read(doc).value.dailyPair == ShowsDailyPair(condition.value)
  {
    hide Shown, ShowsMonthly, ShowsDailyPair, Parse, IsBsky38, SourceOf, NoOverrides, Eval;
    var condition := Get(At(Get(Some(doc), "rules"), 0), "when");
    assert CORNELL in map[CORNELL := CORNELL_DID];
    ShownMeans(condition.value, map[CORNELL := CORNELL_DID], EvidenceSet([], []), "", 0, Mode(false, false, false));
  }

  lemma SameRulesSameDecision(p: CompiledPolicy, q: CompiledPolicy, ev: EvidenceSet, subject: Did, now: Time)
    requires Compiled(p) && Compiled(q) && |p.rules| == |q.rules| == 1 && p.providers == q.providers
    requires p.rules[0] == q.rules[0].(when := p.rules[0].when)
    requires forall mode: Mode :: Eval(p.rules[0].when, p.providers, ev, subject, now, mode) ==
                                  Eval(q.rules[0].when, q.providers, ev, subject, now, mode)
    ensures Evaluate(p, ev, subject, now) == Evaluate(q, ev, subject, now)
  {
    hide Eval, WellFormed;
    assert p.rules[0] in p.rules && q.rules[0] in q.rules;
    assert Results(p, ev, subject, now) == Results(q, ev, subject, now);
    var ids := RuleTruth(p.rules[0], p.providers, ev, subject, now).ids;
    assert RuleTruth(q.rules[0], q.providers, ev, subject, now).ids == ids;
    forall f | f in ids ensures f in UsedIds(p, ev, subject, now) && f in UsedIds(q, ev, subject, now) {
      assert f in RuleTruth(p.rules[0], p.providers, ev, subject, now).ids;
      assert f in RuleTruth(q.rules[0], q.providers, ev, subject, now).ids;
    }
    assert UsedIds(p, ev, subject, now) == ids && UsedIds(q, ev, subject, now) == ids;
  }

  /** Reading an accepted document into the form and building it again, with whatever source and limit, yields
      a policy that decides every subject exactly as the original did, however its alternatives were ordered,
      repeated or nested. */
  lemma EditingPreservesDecisions(doc: Json, account: string, input: Input, ev: EvidenceSet, subject: Did, now: Time)
    requires Read(doc).Some? && Read(doc).value.sourceType != ExternalSnapshot && input.sourceType != ExternalSnapshot
    requires input.monthly == Read(doc).value.monthly && input.dailyPair == Read(doc).value.dailyPair
    requires Build(account, input).Some?
    ensures var p, q := CompileOne(doc), CompileOne(Build(account, input).value);
            p.Some? && q.Some? && Compiled(p.value) && Compiled(q.value) &&
            Evaluate(p.value, ev, subject, now) == Evaluate(q.value, ev, subject, now)
  {
    hide Shown, ShowsMonthly, ShowsDailyPair, Parse, Read, Build, CompileOne, Eval, WellFormed, Evaluate;
    var rebuilt := Build(account, input).value;
    BuiltDocumentsAreReadBack(account, input);
    ReadCompiles(doc);
    ReadCompiles(rebuilt);
    var c, e := Get(At(Get(Some(doc), "rules"), 0), "when").value, Get(At(Get(Some(rebuilt), "rules"), 0), "when").value;
    var providers := map[CORNELL := CORNELL_DID];
    assert CORNELL in providers;
    forall mode: Mode ensures WellFormed(Parse(c).value, providers) && WellFormed(Parse(e).value, providers) &&
                              Eval(Parse(c).value, providers, ev, subject, now, mode) == Eval(Parse(e).value, providers, ev, subject, now, mode) {
      SameBoxesSameMeaning(c, e, providers, ev, subject, now, mode);
    }
    SameBoxesSameMeaning(c, e, providers, ev, subject, now, Mode(false, false, false));
    SameRulesSameDecision(CompileOne(doc).value, CompileOne(rebuilt).value, ev, subject, now);
  }
}
