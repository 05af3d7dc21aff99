/** Reading a label publisher's append-only log: collection for known subjects, and resumable discovery
    of new ones. Signatures are an oracle; a cursor is the position in the log it stands for. */
module Labels {
  import opened Wrappers
  import opened Policy
  import opened PolicySoundness

  /** A published label. Only a label on an account as a whole, not on one of its records, is evidence. */
  datatype Raw = Raw(subject: Did, account: bool, tag: string, at: Time, expires: Option<Time>, negated: bool)

  /** The labels asked for between two positions, and where to go on. */
  datatype Page = Page(labels: seq<Raw>, next: Option<nat>)

  datatype Outcome = Exhausted | OutOfBudget | ReadFailed | Crashed

  function FactOf(publisher: Did, raw: Raw): Fact {
    Fact(publisher, raw.subject, raw.tag, Flag(true), raw.at, raw.expires, raw.negated)
  }

  /** Everyone's labels, or those of some subjects. */
  predicate Wanted(subjects: Option<set<Did>>, raw: Raw) {
    subjects.None? || raw.subject in subjects.value
  }

  function Matching(log: seq<Raw>, subjects: Option<set<Did>>): seq<Raw> {
    if log == [] then []
    else Matching(log[..|log| - 1], subjects) + if Wanted(subjects, log[|log| - 1]) then [log[|log| - 1]] else []
  }

  lemma {:induction false} MatchingIsWanted(log: seq<Raw>, subjects: Option<set<Did>>)
    ensures forall raw :: raw in Matching(log, subjects) <==> raw in log && Wanted(subjects, raw)
  {
    if log != [] {
      MatchingIsWanted(log[..|log| - 1], subjects);
      assert log == log[..|log| - 1] + [log[|log| - 1]];
    }
  }

  /** An honest answer to a query from a position: what matches up to some further position, nothing at all
      only at the end of the log, and no further position only there. */
  predicate Honest(log: seq<Raw>, from: nat, upto: nat, subjects: Option<set<Did>>, limit: nat, page: Page) {
    from <= upto <= |log| && page.labels == Matching(log[from..upto], subjects) && |page.labels| <= limit &&
    (page.labels == [] ==> upto == |log|) && (page.next.None? ==> upto == |log|) && (page.next.Some? ==> page.next.value == upto)
  }

  predicate Persisted(publisher: Did, evidence: set<Fact>, found: set<Did>, raw: Raw) {
    raw.account ==> FactOf(publisher, raw) in evidence && raw.subject in found
  }

  /** Every account label before a position has been stored, and its subject found. */
  ghost predicate CoveredUpTo(publisher: Did, log: seq<Raw>, n: nat, evidence: set<Fact>, found: set<Did>) {
    n <= |log| && forall i :: 0 <= i < n ==> Persisted(publisher, evidence, found, log[i])
  }

  lemma CoverageGrows(publisher: Did, log: seq<Raw>, more: seq<Raw>, n: nat, evidence: set<Fact>, moreEvidence: set<Fact>,
                      found: set<Did>, moreFound: set<Did>)
    requires CoveredUpTo(publisher, log, n, evidence, found) && log <= more && evidence <= moreEvidence && found <= moreFound
    ensures CoveredUpTo(publisher, more, n, moreEvidence, moreFound)
  {
    forall i | 0 <= i < n ensures Persisted(publisher, moreEvidence, moreFound, more[i]) {
      assert Persisted(publisher, evidence, found, log[i]);
    }
  }

  lemma PageExtends(publisher: Did, log: seq<Raw>, from: nat, upto: nat, limit: nat, page: Page, evidence: set<Fact>, found: set<Did>)
    requires CoveredUpTo(publisher, log, from, evidence, found) && Honest(log, from, upto, None, limit, page)
    requires forall i :: 0 <= i < |page.labels| ==> Persisted(publisher, evidence, found, page.labels[i])
    ensures CoveredUpTo(publisher, log, upto, evidence, found)
  {
    MatchingIsWanted(log[from..upto], None);
    forall i | 0 <= i < upto ensures Persisted(publisher, evidence, found, log[i]) {
      if i >= from {
        assert log[from..upto][i - from] in page.labels;
      }
    }
  }

  lemma MatchingAppend(log: seq<Raw>, raw: Raw, subjects: Option<set<Did>>)
    ensures Matching(log + [raw], subjects) == Matching(log, subjects) + if Wanted(subjects, raw) then [raw] else []
  {
    assert (log + [raw])[..|log|] == log;
  }

  lemma MatchingNothing(subjects: Option<set<Did>>)
    ensures Matching([], subjects) == []
  {
  }

  /** The publisher's endpoint: the log only grows, pages may be cut anywhere, and reads may fail. */
  class Publisher {
    const did: Did
    var log: seq<Raw>

    constructor (did: Did)
      ensures this.did == did
    {
      this.did, log := did, [];
    }

    method Publish()
      modifies this
      ensures old(log) <= log
    {
      var n: int := *;
      while n > 0
        invariant old(log) <= log
      {
        var raw: Raw := *;
        log, n := log + [raw], n - 1;
      }
    }

    method Query(from: nat, subjects: Option<set<Did>>, limit: nat) returns (r: Option<Page>, ghost upto: nat)
      requires from <= |log| && 0 < limit
      modifies this
      ensures old(log) <= log
      ensures r.Some? ==> Honest(log, from, upto, subjects, limit, r.value)
    {
      hide Matching;
      Publish();
      upto := from;
      var fails: bool := *;
      if fails { return None, upto; }
      var at, labels, more := from, [], true;
      assert log[from..from] == [];
      MatchingNothing(subjects);
      while at < |log| && |labels| < limit && (labels == [] || more)
        invariant old(log) <= log
        invariant from <= at <= |log| && |labels| <= limit && labels == Matching(log[from..at], subjects)
        decreases |log| - at
      {
        MatchingAppend(log[from..at], log[at], subjects);
        assert log[from..at] + [log[at]] == log[from..at + 1];
        if Wanted(subjects, log[at]) { labels := labels + [log[at]]; }
        at := at + 1;
        more := *;
      }
      var last: bool := *;
      upto := at;
      var page := Page(labels, if at == |log| && last then None else Some(at));
      assert Honest(log, from, at, subjects, limit, page);
      r := Some(page);
    }

    /** The signature of a published label checks out, or the check itself fails. */
    method Verify(raw: Raw) returns (ok: bool) {
      ok := *;
    }
  }

  class Store {
    var evidence: map<Fact, Observation>
    var found: set<Did>
    var cursor: nat

    constructor ()
      ensures evidence == map[] && found == {} && cursor == 0
    {
      evidence, found, cursor := map[], {}, 0;
    }

    /** One transaction; an evidence id that is already there keeps its first record. */
    method AddEvidence(observations: seq<Observation>)
      modifies this`evidence
      ensures evidence.Keys == old(evidence.Keys) + (set o | o in observations :: o.fact)
      ensures forall f :: f in old(evidence) ==> evidence[f] == old(evidence)[f]
    {
      var i := 0;
      while i < |observations|
        invariant 0 <= i <= |observations|
        invariant evidence.Keys == old(evidence.Keys) + (set o | o in observations[..i] :: o.fact)
        invariant forall f :: f in old(evidence) ==> f in evidence && evidence[f] == old(evidence)[f]
      {
        var o := observations[i];
        assert observations[..i + 1] == observations[..i] + [o];
        if o.fact !in evidence { evidence := evidence[o.fact := o]; }
        i := i + 1;
      }
      assert observations[..i] == observations;
    }

    /** Row by row, each on its own; the process may die in between. */
    method Find(subjects: seq<Did>) returns (died: bool)
      modifies this`found
      ensures old(found) <= found && (!died ==> forall d :: d in subjects ==> d in found)
    {
      var i := 0;
      while i < |subjects|
        invariant 0 <= i <= |subjects| && old(found) <= found && forall k :: 0 <= k < i ==> subjects[k] in found
      {
        var dies: bool := *;
        if dies { return true; }
        found := found + {subjects[i]};
        i := i + 1;
      }
      died := false;
    }
  }

  /** The account labels of a page as evidence. */
  function Normalized(publisher: Did, labels: seq<Raw>, at: Time, provenance: string): seq<Observation> {
    if labels == [] then []
    else
      Normalized(publisher, labels[..|labels| - 1], at, provenance) +
      if labels[|labels| - 1].account then [Observation(FactOf(publisher, labels[|labels| - 1]), at, provenance)] else []
  }

  lemma {:induction false} NormalizedIsExact(publisher: Did, labels: seq<Raw>, at: Time, provenance: string)
    ensures forall raw :: raw in labels && raw.account ==> Observation(FactOf(publisher, raw), at, provenance) in Normalized(publisher, labels, at, provenance)
    ensures forall o :: o in Normalized(publisher, labels, at, provenance) ==> exists raw :: raw in labels && raw.account && o.fact == FactOf(publisher, raw)
  {
    if labels != [] {
      var init, last := labels[..|labels| - 1], labels[|labels| - 1];
      NormalizedIsExact(publisher, init, at, provenance);
      assert labels == init + [last];
      forall o | o in Normalized(publisher, labels, at, provenance) ensures exists raw :: raw in labels && raw.account && o.fact == FactOf(publisher, raw) {
        if o in Normalized(publisher, init, at, provenance) {
          var raw :| raw in init && raw.account && o.fact == FactOf(publisher, raw);
          assert raw in labels;
        } else {
          assert last in labels && o.fact == FactOf(publisher, last);
        }
      }
    }
  }

  function Subjects(observations: seq<Observation>): seq<Did> {
    if observations == [] then []
    else Subjects(observations[..|observations| - 1]) + [observations[|observations| - 1].fact.subject]
  }

  lemma {:induction false} SubjectsIn(observations: seq<Observation>)
    ensures forall o :: o in observations ==> o.fact.subject in Subjects(observations)
  {
    if observations != [] {
      SubjectsIn(observations[..|observations| - 1]);
      assert observations == observations[..|observations| - 1] + [observations[|observations| - 1]];
    }
  }

  /** Checks every label of a page; one that does not check out fails the page. */
  method VerifyPage(p: Publisher, labels: seq<Raw>, at: Time) returns (observations: Option<seq<Observation>>)
    ensures observations.Some? ==> observations.value == Normalized(p.did, labels, at, "")
  {
    var i, done := 0, [];
    while i < |labels|
      invariant 0 <= i <= |labels| && done == Normalized(p.did, labels[..i], at, "")
    {
      var ok := p.Verify(labels[i]);
      if !ok { return None; }
      assert labels[..i + 1][..i] == labels[..i];
      if labels[i].account { done := done + [Observation(FactOf(p.did, labels[i]), at, "")]; }
      i := i + 1;
    }
    assert labels[..i] == labels;
    return Some(done);
  }

  ghost predicate Resumable(p: Publisher, s: Store)
    reads p, s
  {
    CoveredUpTo(p.did, p.log, s.cursor, s.evidence.Keys, s.found)
  }

  /** Stores a page's evidence and subjects; the process may die between the writes. */
  method StorePage(p: Publisher, s: Store, observations: seq<Observation>) returns (died: bool)
    requires Resumable(p, s)
    modifies s`evidence, s`found
    ensures Resumable(p, s) && old(s.evidence.Keys) <= s.evidence.Keys && old(s.found) <= s.found
    ensures !died ==> forall o :: o in observations ==> o.fact in s.evidence.Keys && o.fact.subject in s.found
  {
    ghost var evidence, found := s.evidence.Keys, s.found;
    var dies: bool := *;
    if dies { return true; }
    s.AddEvidence(observations);
    CoverageGrows(p.did, p.log, p.log, s.cursor, evidence, s.evidence.Keys, found, s.found);
    forall o | o in observations ensures o.fact in s.evidence.Keys { assert o.fact in (set x | x in observations :: x.fact); }
    dies := *;
    if dies { return true; }
    SubjectsIn(observations);
    died := s.Find(Subjects(observations));
    CoverageGrows(p.did, p.log, p.log, s.cursor, evidence, s.evidence.Keys, found, s.found);
  }

  lemma PageIsStored(publisher: Did, labels: seq<Raw>, at: Time, evidence: set<Fact>, found: set<Did>)
    requires forall o :: o in Normalized(publisher, labels, at, "") ==> o.fact in evidence && o.fact.subject in found
    ensures forall i :: 0 <= i < |labels| ==> Persisted(publisher, evidence, found, labels[i])
  {
    NormalizedIsExact(publisher, labels, at, "");
    forall i | 0 <= i < |labels| ensures Persisted(publisher, evidence, found, labels[i]) {
      assert labels[i] in labels;
    }
  }

  /** One discovery run from the stored cursor. However it ends, even by a crash between two writes, nothing
      before the stored cursor is missing; and a run that reports exhaustion has found everyone. */
  method Discover(p: Publisher, s: Store, limit: nat, maxPages: nat, now: Time) returns (outcome: Outcome)
    requires Resumable(p, s)
    modifies p, s
    ensures Resumable(p, s) && old(p.log) <= p.log
    ensures outcome == Exhausted ==> CoveredUpTo(p.did, p.log, |p.log|, s.evidence.Keys, s.found)
  {
    var cursor, seen, count, pages := s.cursor, {}, 0, 0;
    while pages < maxPages
      invariant Resumable(p, s) && old(p.log) <= p.log && cursor == s.cursor
      decreases maxPages - pages
    {
      pages := pages + 1;
      ghost var before := p.log;
      var page, upto := p.Query(cursor, None, if limit - count >= 250 then 250 else if limit - count >= 1 then limit - count else 1);
      CoverageGrows(p.did, before, p.log, cursor, s.evidence.Keys, s.evidence.Keys, s.found, s.found);
      if page.None? { return ReadFailed; }
      var observations := VerifyPage(p, page.value.labels, now);
      if observations.None? { return ReadFailed; }
      var died := StorePage(p, s, observations.value);
      if died { return Crashed; }
      PageIsStored(p.did, page.value.labels, now, s.evidence.Keys, s.found);
      count := count + |page.value.labels|;
      PageExtends(p.did, p.log, cursor, upto, |page.value.labels|, page.value, s.evidence.Keys, s.found);
      if page.value.labels == [] || page.value.next.None? { return Exhausted; }
      var next := page.value.next.value;
      if next in seen || next == cursor { return ReadFailed; }
      var dies: bool := *;
      if dies { return Crashed; }
      seen, cursor, s.cursor := seen + {next}, next, next;
      if count >= limit { break; }
    }
    return OutOfBudget;
  }

  /** Any number of runs, with the publisher writing in between. */
  method DiscoverAgain(p: Publisher, s: Store, limit: nat, maxPages: nat, now: Time, runs: nat) returns (last: Outcome)
    requires Resumable(p, s)
    modifies p, s
    ensures Resumable(p, s) && old(p.log) <= p.log
    ensures last == Exhausted ==> CoveredUpTo(p.did, p.log, |p.log|, s.evidence.Keys, s.found)
  {
    last := OutOfBudget;
    for i := 0 to runs
      invariant Resumable(p, s) && old(p.log) <= p.log
      invariant last == Exhausted ==> CoveredUpTo(p.did, p.log, |p.log|, s.evidence.Keys, s.found)
    {
      ghost var before := p.log;
      p.Publish();
      CoverageGrows(p.did, before, p.log, s.cursor, s.evidence.Keys, s.evidence.Keys, s.found, s.found);
      last := Discover(p, s, limit, maxPages, now);
    }
  }

  // ----- collection for known subjects -----

  predicate Reported(publisher: Did, facts: set<Fact>, subjects: set<Did>, raw: Raw) {
    raw.account && raw.subject in subjects ==> FactOf(publisher, raw) in facts
  }

  /** Evidence holds published account labels only. */
  ghost predicate Genuine(publisher: Did, log: seq<Raw>, observations: seq<Observation>) {
    forall o :: o in observations ==> exists raw :: raw in log && raw.account && o.fact == FactOf(publisher, raw)
  }

  function Facts(observations: seq<Observation>): set<Fact> {
    set o | o in observations :: o.fact
  }

  lemma PageIsReported(publisher: Did, log: seq<Raw>, from: nat, upto: nat, subjects: set<Did>, limit: nat, page: Page,
                       before: seq<Observation>, at: Time)
    requires Honest(log, from, upto, Some(subjects), limit, page) && Genuine(publisher, log, before)
    requires forall i :: 0 <= i < from ==> Reported(publisher, Facts(before), subjects, log[i])
    ensures var after := before + Normalized(publisher, page.labels, at, "");
            Genuine(publisher, log, after) && forall i :: 0 <= i < upto ==> Reported(publisher, Facts(after), subjects, log[i])
  {
    var added := Normalized(publisher, page.labels, at, "");
    NormalizedIsExact(publisher, page.labels, at, "");
    MatchingIsWanted(log[from..upto], Some(subjects));
    forall o | o in before + added ensures exists raw :: raw in log && raw.account && o.fact == FactOf(publisher, raw) {
      if o in added {
        var raw :| raw in page.labels && raw.account && o.fact == FactOf(publisher, raw);
        assert raw in log[from..upto];
      }
    }
    forall i | 0 <= i < upto ensures Reported(publisher, Facts(before + added), subjects, log[i]) {
      if i < from {
        assert Reported(publisher, Facts(before), subjects, log[i]);
      } else if log[i].account && log[i].subject in subjects {
        assert log[from..upto][i - from] in page.labels;
        assert Observation(FactOf(publisher, log[i]), at, "") in before + added;
      }
    }
  }

  ghost predicate AllReported(publisher: Did, log: seq<Raw>, n: nat, facts: set<Fact>, subjects: set<Did>) {
    n <= |log| && forall i :: 0 <= i < n ==> Reported(publisher, facts, subjects, log[i])
  }

  lemma ReportsGrow(publisher: Did, log: seq<Raw>, more: seq<Raw>, n: nat, observations: seq<Observation>, subjects: set<Did>)
    requires AllReported(publisher, log, n, Facts(observations), subjects) && Genuine(publisher, log, observations) && log <= more
    ensures AllReported(publisher, more, n, Facts(observations), subjects) && Genuine(publisher, more, observations)
  {
    forall i | 0 <= i < n ensures Reported(publisher, Facts(observations), subjects, more[i]) {
      assert Reported(publisher, Facts(observations), subjects, log[i]);
    }
    forall o | o in observations ensures exists raw :: raw in more && raw.account && o.fact == FactOf(publisher, raw) {
      var raw :| raw in log && raw.account && o.fact == FactOf(publisher, raw);
    }
  }

  lemma PartIsGenuine(publisher: Did, log: seq<Raw>, from: nat, upto: nat, subjects: set<Did>, limit: nat, page: Page,
                      before: seq<Observation>, at: Time, n: nat)
    requires Honest(log, from, upto, Some(subjects), limit, page) && Genuine(publisher, log, before) && n <= |page.labels|
    ensures Genuine(publisher, log, before + Normalized(publisher, page.labels[..n], at, ""))
  {
    var added := Normalized(publisher, page.labels[..n], at, "");
    NormalizedIsExact(publisher, page.labels[..n], at, "");
    MatchingIsWanted(log[from..upto], Some(subjects));
    forall o | o in before + added ensures exists raw :: raw in log && raw.account && o.fact == FactOf(publisher, raw) {
      if o in added {
        var raw :| raw in page.labels[..n] && raw.account && o.fact == FactOf(publisher, raw);
        assert raw in page.labels && raw in log[from..upto];
      }
    }
  }

  /** The labels of one page, one at a time: a label of another subject or one that fails its check ends the
      page, and what was read of it before is kept. */
  method CollectPage(p: Publisher, labels: seq<Raw>, requested: set<Did>, at: Time)
    returns (read: seq<Observation>, through: bool, ghost n: nat)
    ensures n <= |labels| && read == Normalized(p.did, labels[..n], at, "") && (through <==> n == |labels|)
    ensures through ==> read == Normalized(p.did, labels, at, "")
    ensures through ==> forall i :: 0 <= i < |labels| ==> labels[i].subject in requested
    ensures |read| <= |labels|
  {
    read, n, through := [], 0, true;
    var i := 0;
    while i < |labels|
      invariant 0 <= i <= |labels| && |read| <= i && read == Normalized(p.did, labels[..i], at, "")
      invariant forall k :: 0 <= k < i ==> labels[k].subject in requested
    {
      if labels[i].subject !in requested { return read, false, i; }
      var ok := p.Verify(labels[i]);
      if !ok { return read, false, i; }
      assert labels[..i + 1][..i] == labels[..i];
      if labels[i].account { read := read + [Observation(FactOf(p.did, labels[i]), at, "")]; }
      i := i + 1;
    }
    n := i;
    assert labels[..n] == labels;
  }

  /** One batch of subjects, page by page; a failed read leaves what was read, uncovered. */
  method CollectBatch(p: Publisher, requested: set<Did>, maxPages: nat, at: Time)
    returns (observations: seq<Observation>, complete: bool)
    modifies p
    ensures old(p.log) <= p.log && Genuine(p.did, p.log, observations)
    ensures complete ==> AllReported(p.did, p.log, |p.log|, Facts(observations), requested)
  {
    observations, complete := [], false;
    var cursor, seen, pages := 0, {}, 0;
    while pages < maxPages
      invariant old(p.log) <= p.log && Genuine(p.did, p.log, observations)
      invariant AllReported(p.did, p.log, cursor, Facts(observations), requested)
      decreases maxPages - pages
    {
      pages := pages + 1;
      ghost var before := p.log;
      var page, upto := p.Query(cursor, Some(requested), 250);
      ReportsGrow(p.did, before, p.log, cursor, observations, requested);
      if page.None? { return; }
      ghost var kept := observations;
      var read, through, n := CollectPage(p, page.value.labels, requested, at);
      PartIsGenuine(p.did, p.log, cursor, upto, requested, 250, page.value, kept, at, n);
      PageIsReported(p.did, p.log, cursor, upto, requested, 250, page.value, kept, at);
      observations := observations + read;
      if !through { return; }
      if page.value.labels == [] || page.value.next.None? {
        complete := true;
        return;
      }
      var next := page.value.next.value;
      if next in seen { return; }
      seen, cursor := seen + {next}, next;
    }
  }

  function CoverageOf(publisher: Did, subjects: seq<Did>, complete: bool): seq<Coverage> {
    if subjects == [] then [] else CoverageOf(publisher, subjects[..|subjects| - 1], complete) + [Coverage(publisher, subjects[|subjects| - 1], complete)]
  }

  lemma {:induction false} CoverageOfIn(publisher: Did, subjects: seq<Did>, complete: bool)
    ensures forall c :: c in CoverageOf(publisher, subjects, complete) <==>
                        c.provider == publisher && c.complete == complete && c.subject in subjects
  {
    if subjects != [] {
      CoverageOfIn(publisher, subjects[..|subjects| - 1], complete);
      assert subjects == subjects[..|subjects| - 1] + [subjects[|subjects| - 1]];
    }
  }

  /** What collected evidence says of a publisher's log: nothing but its account labels, and all of those
      there were at the start, for every subject it calls covered. */
  ghost predicate Collected(publisher: Did, start: seq<Raw>, log: seq<Raw>, ev: EvidenceSet) {
    Genuine(publisher, log, ev.observations) && (forall c :: c in ev.coverage ==> c.provider == publisher) &&
    forall i, c :: 0 <= i < |start| && c in ev.coverage && c.complete && start[i].account && start[i].subject == c.subject ==>
      FactOf(publisher, start[i]) in Facts(ev.observations)
  }

  lemma BatchJoins(publisher: Did, start: seq<Raw>, before: seq<Raw>, log: seq<Raw>, ev: EvidenceSet, batch: seq<Did>,
                   observations: seq<Observation>, complete: bool)
    requires Collected(publisher, start, before, ev) && start <= before <= log && Genuine(publisher, log, observations)
    requires complete ==> AllReported(publisher, log, |log|, Facts(observations), (set d | d in batch))
    ensures Collected(publisher, start, log, EvidenceSet(ev.observations + observations, ev.coverage + CoverageOf(publisher, batch, complete)))
  {
    CoverageOfIn(publisher, batch, complete);
    var all := ev.observations + observations;
    forall o | o in all ensures exists raw :: raw in log && raw.account && o.fact == FactOf(publisher, raw) {
      if o in ev.observations {
        var raw :| raw in before && raw.account && o.fact == FactOf(publisher, raw);
        assert raw in log;
      }
    }
    forall i, c | 0 <= i < |start| && c in ev.coverage + CoverageOf(publisher, batch, complete) && c.complete &&
                  start[i].account && start[i].subject == c.subject
      ensures FactOf(publisher, start[i]) in Facts(all)
    {
      if c in ev.coverage {
        assert FactOf(publisher, start[i]) in Facts(ev.observations);
      } else {
        assert log[i] == start[i] && Reported(publisher, Facts(observations), (set d | d in batch), log[i]);
        assert FactOf(publisher, start[i]) in Facts(observations);
      }
    }
  }

  predicate Covers(coverage: seq<Coverage>, d: Did) {
    exists c :: c in coverage && c.subject == d
  }

  /** All subjects, a hundred at a time. */
  method Collect(p: Publisher, subjects: seq<Did>, maxPages: nat, at: Time) returns (ev: EvidenceSet)
    modifies p
    ensures old(p.log) <= p.log && Collected(p.did, old(p.log), p.log, ev)
    ensures forall i :: 0 <= i < |subjects| ==> Covers(ev.coverage, subjects[i])
  {
    ev := EvidenceSet([], []);
    var offset := 0;
    while offset < |subjects|
      invariant old(p.log) <= p.log && Collected(p.did, old(p.log), p.log, ev)
      invariant 0 <= offset
      invariant forall i :: 0 <= i < offset && i < |subjects| ==> Covers(ev.coverage, subjects[i])
      decreases |subjects| - offset
    {
      var batch := subjects[offset..if offset + 100 <= |subjects| then offset + 100 else |subjects|];
      ghost var before := p.log;
      ghost var covered := ev.coverage;
      var observations, complete := CollectBatch(p, (set d | d in batch), maxPages, at);
      BatchJoins(p.did, old(p.log), before, p.log, ev, batch, observations, complete);
      CoverageOfIn(p.did, batch, complete);
      ev := EvidenceSet(ev.observations + observations, ev.coverage + CoverageOf(p.did, batch, complete));
      forall i | 0 <= i < offset + 100 && i < |subjects| ensures Covers(ev.coverage, subjects[i]) {
        if i < offset {
          assert Covers(covered, subjects[i]);
          var c :| c in covered && c.subject == subjects[i];
          assert c in ev.coverage;
        } else {
          assert subjects[i] == batch[i - offset];
          assert Coverage(p.did, subjects[i], complete) in ev.coverage;
        }
      }
      offset := offset + 100;
    }
  }

  /** The whole log as evidence, with the same subjects covered in full. */
  function Published(publisher: Did, log: seq<Raw>, ev: EvidenceSet): EvidenceSet {
    EvidenceSet(Normalized(publisher, log, 0, ""), ev.coverage)
  }

  lemma CoveredFactsAreAll(publisher: Did, log: seq<Raw>, ev: EvidenceSet, s: Did)
    requires Collected(publisher, log, log, ev) && Complete(ev, publisher, s)
    ensures FactsAt(Published(publisher, log, ev), publisher, s) == FactsAt(ev, publisher, s)
  {
    NormalizedIsExact(publisher, log, 0, "");
    var c :| c in ev.coverage && c.provider == publisher && c.subject == s && c.complete;
    forall f | f in FactsAt(Published(publisher, log, ev), publisher, s) ensures f in FactsAt(ev, publisher, s) {
      var o :| o in Normalized(publisher, log, 0, "") && o.fact == f;
      var raw :| raw in log && raw.account && o.fact == FactOf(publisher, raw);
      var i :| 0 <= i < |log| && log[i] == raw;
      assert FactOf(publisher, log[i]) in Facts(ev.observations);
    }
    forall f | f in FactsAt(ev, publisher, s) ensures f in FactsAt(Published(publisher, log, ev), publisher, s) {
      var o :| o in ev.observations && o.fact == f;
      var raw :| raw in log && raw.account && o.fact == FactOf(publisher, raw);
      assert Observation(FactOf(publisher, raw), 0, "") in Normalized(publisher, log, 0, "");
    }
  }

  /** A conclusive verdict on collected labels is the verdict on everything the publisher has published,
      however incomplete the collection was. */
  lemma CollectedVerdictsHold(policy: CompiledPolicy, publisher: Did, log: seq<Raw>, ev: EvidenceSet, subject: Did, now: Time)
    requires Compiled(policy) && Collected(publisher, log, log, ev)
    ensures var d, d' := Evaluate(policy, ev, subject, now), Evaluate(policy, Published(publisher, log, ev), subject, now);
            d.outcome == Quarantined || d.basis == AllowRule ==> d'.outcome == d.outcome && d'.basis == d.basis
  {
    var all := Published(publisher, log, ev);
    forall p: Did, s: Did | Complete(ev, p, s) ensures Complete(all, p, s) && FactsAt(all, p, s) == FactsAt(ev, p, s) {
      assert p == publisher;
      CoveredFactsAreAll(publisher, log, ev, s);
    }
    hide Evaluate, Collected;
    ConclusiveVerdictSurvivesCompletion(policy, ev, all, subject, now);
  }
}
