/** One account's rules: the authoritative row of the web application, and their projection into the
    account's engine by bridge calls that run one at a time and start in the order they were made.
    A rule set stands for its own hash. */
module RuleProjection {
  import opened Wrappers

  type Did = string

  datatype Rules = Rules(exempt: set<Did>, allow: set<Did>, keepMuted: set<Did>)

  datatype Layer = Exempt | Allow | KeepMuted

  /** What a projection carries: the revision and the rules it was made from. */
  datatype Version = Version(revision: nat, rules: Rules)

  datatype Authority = Authority(current: Version, projected: Option<Version>)

  datatype Call = Replace(version: Version) | List

  /** A bridge call in flight; `worked` once it has committed or read. */
  datatype Running = Running(call: Call, worked: bool, found: Rules, orphan: bool)

  /** `source` and `history` are bookkeeping: the revision the engine last took, and every version there was. */
  datatype State = State(authority: Option<Authority>, overrides: Rules, running: Option<Running>, queue: seq<Call>,
                         marks: set<Version>, listed: set<Rules>, seen: set<Version>,
                         source: nat, history: map<nat, Rules>)

  datatype Action =
    | Read(accepted: bool)
    | Edit(version: Version, subject: Did, layer: Layer, enabled: bool, accepted: bool)
    | Import(rules: Rules, accepted: bool)
    | StartHead(refused: bool)
    | Work
    | End(answered: bool)
    | Mark(version: Version)
    | Initialize(found: Rules, accepted: bool)
    | Crash

  function Change(rules: Rules, subject: Did, layer: Layer, enabled: bool): Rules {
    match layer
    case Exempt => rules.(exempt := if enabled then rules.exempt + {subject} else rules.exempt - {subject})
    case Allow => rules.(allow := if enabled then rules.allow + {subject} else rules.allow - {subject})
    case KeepMuted => rules.(keepMuted := if enabled then rules.keepMuted + {subject} else rules.keepMuted - {subject})
  }

  predicate Enabled(s: State, a: Action) {
    match a
    case Read(_) => true
    case Edit(v, _, _, _, _) => v in s.seen && s.authority.Some? && s.authority.value.current.revision == v.revision
    case Import(_, _) => s.authority.Some?
    case StartHead(_) => s.running.None? && s.queue != []
    case Work => s.running.Some? && !s.running.value.worked
    case End(answered) => s.running.Some? && (answered ==> s.running.value.worked)
    case Mark(v) => v in s.marks
    case Initialize(found, _) => found in s.listed
    case Crash => true
  }

  predicate Unprojected(a: Authority) {
    a.projected != Some(a.current)
  }

  /** The call a reader makes when it finds no row, or one that is not projected. */
  function Needed(authority: Option<Authority>): seq<Call> {
    if authority.None? then [List] else if Unprojected(authority.value) then [Replace(authority.value.current)] else []
  }

  function Successor(v: Version, rules: Rules): Version {
    Version(v.revision + 1, rules)
  }

  function Adopt(s: State, v: Version, accepted: bool): State {
    s.(authority := Some(Authority(v, None)), history := s.history[v.revision := v.rules],
       queue := if accepted then s.queue + [Replace(v)] else s.queue)
  }

  function Next(s: State, a: Action): State
    requires Enabled(s, a)
  {
    match a
    case Read(accepted) =>
      s.(queue := if accepted then s.queue + Needed(s.authority) else s.queue,
         seen := if s.authority.Some? then s.seen + {s.authority.value.current} else s.seen)
    case Edit(v, subject, layer, enabled, accepted) =>
      Adopt(s, Successor(v, Change(v.rules, subject, layer, enabled)), accepted)
    case Import(rules, accepted) => Adopt(s, Successor(s.authority.value.current, rules), accepted)
    case StartHead(refused) =>
      s.(queue := s.queue[1..], running := if refused then None else Some(Running(s.queue[0], false, s.overrides, false)))
    case Work =>
      var call := s.running.value.call;
      s.(overrides := if call.Replace? then call.version.rules else s.overrides,
         source := if call.Replace? then call.version.revision else s.source,
         running := Some(s.running.value.(worked := true, found := s.overrides)))
    case End(answered) =>
      var r := s.running.value;
      s.(running := None,
         marks := if answered && !r.orphan && r.call.Replace? then s.marks + {r.call.version} else s.marks,
         listed := if answered && !r.orphan && r.call.List? then s.listed + {r.found} else s.listed)
    case Mark(v) =>
      s.(marks := s.marks - {v},
         authority := if s.authority.Some? && s.authority.value.current == v then Some(s.authority.value.(projected := Some(v)))
                      else s.authority)
    case Initialize(found, accepted) =>
      var first := Version(1, found);
      var authority := if s.authority.None? then Authority(first, Some(first)) else s.authority.value;
      s.(listed := s.listed - {found}, authority := Some(authority), seen := s.seen + {authority.current},
         history := if s.authority.None? then s.history[1 := found] else s.history,
         source := if s.authority.None? then 1 else s.source,
         queue := if accepted then s.queue + Needed(Some(authority)) else s.queue)
    case Crash =>
      s.(queue := [], marks := {}, listed := {}, seen := {},
         running := if s.running.Some? then Some(s.running.value.(orphan := true)) else None)
  }

  function Initial(overrides: Rules): State {
    State(None, overrides, None, [], {}, {}, {}, 0, map[])
  }

  function After(overrides: Rules, actions: seq<Action>): State
    decreases |actions|
  {
    if actions == [] then Initial(overrides)
    else
      var before := After(overrides, actions[..|actions| - 1]);
      if Enabled(before, actions[|actions| - 1]) then Next(before, actions[|actions| - 1]) else before
  }

  /** The check before anything relies on the engine's rules. */
  predicate Ready(s: State) {
    s.authority.Some? && !Unprojected(s.authority.value)
  }

  // ----- invariants -----

  predicate Recorded(s: State, v: Version) {
    v.revision in s.history && s.history[v.revision] == v.rules
  }

  predicate CallRecorded(s: State, c: Call) {
    c.Replace? ==> s.authority.Some? && c.version.revision <= s.authority.value.current.revision && Recorded(s, c.version)
  }

  /** Every version anyone remembers is one the authority had. */
  ghost predicate Versions(s: State) {
    (s.authority.Some? ==>
       Recorded(s, s.authority.value.current) && (s.authority.value.projected.Some? ==> Recorded(s, s.authority.value.projected.value))) &&
    (s.authority.None? ==> s.history == map[] && s.seen == {} && s.marks == {}) &&
    (forall r :: r in s.history ==> s.authority.Some? && r <= s.authority.value.current.revision) &&
    (forall i :: 0 <= i < |s.queue| ==> CallRecorded(s, s.queue[i])) &&
    (s.running.Some? ==> CallRecorded(s, s.running.value.call)) &&
    (forall v :: v in s.marks ==> Recorded(s, v)) &&
    (forall v :: v in s.seen ==> Recorded(s, v))
  }

  predicate NotBefore(c: Call, revision: nat) {
    c.Replace? ==> revision <= c.version.revision
  }

  /** Replacements are made, and so run, in the order of their revisions; the engine is never ahead of them. */
  ghost predicate Ordered(s: State) {
    (forall i, j :: 0 <= i < j < |s.queue| && s.queue[i].Replace? ==> NotBefore(s.queue[j], s.queue[i].version.revision)) &&
    (s.running.Some? && s.running.value.call.Replace? ==>
       forall i :: 0 <= i < |s.queue| ==> NotBefore(s.queue[i], s.running.value.call.version.revision)) &&
    (forall i :: 0 <= i < |s.queue| ==> NotBefore(s.queue[i], s.source)) &&
    (s.running.Some? ==> NotBefore(s.running.value.call, s.source)) &&
    (s.authority.Some? ==> s.source <= s.authority.value.current.revision)
  }

  /** The engine holds what its source revision says, and has taken whatever counts as projected. */
  ghost predicate Projected(s: State) {
    (s.authority.Some? ==> Recorded(s, Version(s.source, s.overrides))) &&
    (s.running.Some? && s.running.value.worked && s.running.value.call.Replace? ==> s.source == s.running.value.call.version.revision) &&
    (forall v :: v in s.marks ==> v.revision <= s.source) &&
    (s.authority.Some? && s.authority.value.projected.Some? ==> s.authority.value.projected.value.revision <= s.source) &&
    (s.authority.None? ==>
       (forall found :: found in s.listed ==> found == s.overrides) &&
       (s.running.Some? ==> s.running.value.call.List? && (s.running.value.worked ==> s.running.value.found == s.overrides)) &&
       forall i :: 0 <= i < |s.queue| ==> s.queue[i].List?)
  }

  lemma KeepsVersions(s: State, a: Action)
    requires Versions(s) && Enabled(s, a)
    ensures Versions(Next(s, a))
  {
  }

  lemma KeepsOrdered(s: State, a: Action)
    requires Versions(s) && Ordered(s) && Projected(s) && Enabled(s, a)
    ensures Ordered(Next(s, a))
  {
  }

  lemma KeepsProjected(s: State, a: Action)
    requires Versions(s) && Ordered(s) && Projected(s) && Enabled(s, a)
    ensures Projected(Next(s, a))
  {
  }

  ghost predicate Kept(s: State) {
    Versions(s) && Ordered(s) && Projected(s)
  }

  lemma {:induction false} AlwaysKept(overrides: Rules, actions: seq<Action>)
    ensures Kept(After(overrides, actions))
    decreases |actions|
  {
    if actions != [] {
      var before, last := After(overrides, actions[..|actions| - 1]), actions[|actions| - 1];
      AlwaysKept(overrides, actions[..|actions| - 1]);
      hide Enabled, Next, Versions, Ordered, Projected;
      if Enabled(before, last) {
        KeepsVersions(before, last);
        KeepsOrdered(before, last);
        KeepsProjected(before, last);
      }
    }
  }

  // ----- the guarantees -----

  /** Whenever the readiness check passes, the engine's overrides are the authoritative rules, whatever edits,
      imports, failed or killed projections, re-projections and crashes came before. */
  lemma ReadinessIsTruthful(overrides: Rules, actions: seq<Action>)
    requires Ready(After(overrides, actions))
    ensures After(overrides, actions).overrides == After(overrides, actions).authority.value.current.rules
  {
    AlwaysKept(overrides, actions);
  }

  /** An edit that goes through changes its own subject in its own layer and nothing else: whatever it read
      before is still what the authority says. */
  lemma EditsLoseNothing(overrides: Rules, actions: seq<Action>, a: Action)
    requires a.Edit? && Enabled(After(overrides, actions), a)
    ensures var s := After(overrides, actions); var t := Next(s, a);
            t.authority.value.current == Successor(s.authority.value.current,
                                                   Change(s.authority.value.current.rules, a.subject, a.layer, a.enabled)) &&
            !Ready(t)
  {
    AlwaysKept(overrides, actions);
    hide After;
    var s := After(overrides, actions);
    assert Recorded(s, a.version) && Recorded(s, s.authority.value.current);
  }

  /** A projection answered late marks nothing: only the version that is still current becomes ready. */
  lemma LateMarksAreHarmless(overrides: Rules, actions: seq<Action>, v: Version)
    requires Enabled(After(overrides, actions), Mark(v))
    ensures var s := After(overrides, actions); var t := Next(s, Mark(v));
            (Ready(t) && !Ready(s) ==> t.authority.value.current == v && t.overrides == v.rules) &&
            (Ready(s) ==> Ready(t))
  {
    AlwaysKept(overrides, actions);
    AlwaysKept(overrides, actions + [Mark(v)]);
    assert (actions + [Mark(v)])[..|actions|] == actions;
  }

  /** From any quiet moment one read brings the engine up to date. */
  lemma OneReadCatchesUp(overrides: Rules, actions: seq<Action>) returns (more: seq<Action>)
    requires var s := After(overrides, actions); s.authority.Some? && s.running.None? && s.queue == []
    ensures actions <= more && |more| <= |actions| + 5 && Ready(After(overrides, more))
    ensures After(overrides, more).authority.value.current == After(overrides, actions).authority.value.current
  {
    hide After;
    var s := After(overrides, actions);
    more := actions;
    if Unprojected(s.authority.value) {
      var v := s.authority.value.current;
      more, s := Then(overrides, more, s, Read(true));
      more, s := Then(overrides, more, s, StartHead(false));
      more, s := Then(overrides, more, s, Work);
      more, s := Then(overrides, more, s, End(true));
      more, s := Then(overrides, more, s, Mark(v));
    }
  }

  lemma Then(overrides: Rules, actions: seq<Action>, s: State, a: Action) returns (more: seq<Action>, t: State)
    requires After(overrides, actions) == s && Enabled(s, a)
    ensures more == actions + [a] && t == Next(s, a) && After(overrides, more) == t
  {
    more, t := actions + [a], Next(s, a);
    assert more[..|actions|] == actions;
  }
}
