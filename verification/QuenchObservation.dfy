/** Counting repeated reply lineages in a capture: removal of duplicates, grouping, and what a quench
    of each repeated lineage would suppress. */
module QuenchObservation {
  import opened Wrappers

  type Did = nat
  type Uri = nat

  datatype Feed = Home | Discover

  /** What a sanitized observation's id digests; other captures carry ids of their own. */
  datatype Id = Digest(observedAt: int, feed: Feed, position: nat, uri: Uri, cid: nat) | Foreign(n: nat)

  datatype Observation = Observation(id: Id, feed: Feed, author: Did, determinate: bool, lineage: Option<Uri>)

  datatype Group = Group(lineage: Uri, rows: seq<Observation>)

  datatype Analysis = Analysis(total: nat, duplicates: nat, determinate: nat, indeterminate: nat, lineages: nat,
                               distribution: map<nat, nat>, once: nat, twoPlus: nat, threePlus: nat, fivePlus: nat,
                               inRepeated: nat, suppressed: nat, noEffect: nat)

  /** A determinate observation names its lineage. */
  predicate Valid(input: seq<Observation>) {
    forall i :: 0 <= i < |input| && input[i].determinate ==> input[i].lineage.Some?
  }

  // ----- specification -----

  function Ids(input: seq<Observation>): set<Id> {
    set o | o in input :: o.id
  }

  /** Each id's first observation, in order. */
  function Unique(input: seq<Observation>): seq<Observation> {
    if input == [] then []
    else
      var last := input[|input| - 1];
      Unique(input[..|input| - 1]) + if last.id in Ids(input[..|input| - 1]) then [] else [last]
  }

  predicate Traced(o: Observation) {
    o.determinate && o.lineage.Some?
  }

  function Traces(input: seq<Observation>): seq<Observation> {
    if input == [] then []
    else Traces(input[..|input| - 1]) + if Traced(input[|input| - 1]) then [input[|input| - 1]] else []
  }

  function Untraced(input: seq<Observation>): nat {
    if input == [] then 0 else Untraced(input[..|input| - 1]) + if input[|input| - 1].determinate then 0 else 1
  }

  /** Into the group of its lineage, or a new last group. */
  function Join(groups: seq<Group>, o: Observation): seq<Group>
    requires Traced(o)
  {
    if groups == [] then [Group(o.lineage.value, [o])]
    else if groups[0].lineage == o.lineage.value then [groups[0].(rows := groups[0].rows + [o])] + groups[1..]
    else [groups[0]] + Join(groups[1..], o)
  }

  predicate AllTraced(rows: seq<Observation>) {
    forall i :: 0 <= i < |rows| ==> Traced(rows[i])
  }

  function GroupBy(rows: seq<Observation>): seq<Group>
    requires AllTraced(rows)
  {
    if rows == [] then [] else Join(GroupBy(rows[..|rows| - 1]), rows[|rows| - 1])
  }

  function Rows(groups: seq<Group>): nat {
    if groups == [] then 0 else |groups[0].rows| + Rows(groups[1..])
  }

  function AtLeast(groups: seq<Group>, n: nat): nat {
    if groups == [] then 0 else (if |groups[0].rows| >= n then 1 else 0) + AtLeast(groups[1..], n)
  }

  function RepeatedRows(groups: seq<Group>): nat {
    if groups == [] then 0 else (if |groups[0].rows| >= 2 then |groups[0].rows| else 0) + RepeatedRows(groups[1..])
  }

  /** Everything after the first of each repeated lineage. */
  function Suppressed(groups: seq<Group>): seq<Observation> {
    if groups == [] then []
    else (if |groups[0].rows| >= 2 then groups[0].rows[1..] else []) + Suppressed(groups[1..])
  }

  function Count(distribution: map<nat, nat>, n: nat): nat {
    if n in distribution then distribution[n] else 0
  }

  function Distribution(groups: seq<Group>): map<nat, nat> {
    if groups == [] then map[]
    else
      var before := Distribution(groups[..|groups| - 1]);
      var n := |groups[|groups| - 1].rows|;
      before[n := Count(before, n) + 1]
  }

  lemma {:induction false} TracesAreTraced(input: seq<Observation>)
    ensures AllTraced(Traces(input))
  {
    if input != [] { TracesAreTraced(input[..|input| - 1]); }
  }

  function GroupsOf(input: seq<Observation>): seq<Group> {
    TracesAreTraced(Unique(input));
    GroupBy(Traces(Unique(input)))
  }

  lemma {:induction false} AtLeastBounds(groups: seq<Group>, m: nat, n: nat)
    requires m <= n
    ensures AtLeast(groups, n) <= AtLeast(groups, m) <= |groups|
  {
    if groups != [] { AtLeastBounds(groups[1..], m, n); }
  }

  lemma {:induction false} UniqueIsShorter(input: seq<Observation>)
    ensures |Unique(input)| <= |input|
  {
    if input != [] { UniqueIsShorter(input[..|input| - 1]); }
  }

  function AnalysisOf(input: seq<Observation>): Analysis {
    UniqueIsShorter(input);
    var observations, groups := Unique(input), GroupsOf(input);
    AtLeastBounds(groups, 2, 2);
    Analysis(|observations|, |input| - |observations|, |Traces(observations)|, Untraced(observations), |groups|, Distribution(groups),
             |groups| - AtLeast(groups, 2), AtLeast(groups, 2), AtLeast(groups, 3), AtLeast(groups, 5), RepeatedRows(groups),
             |Suppressed(groups)|, |groups| - AtLeast(groups, 2))
  }

  // ----- grouping conserves rows -----

  function Lineages(rows: seq<Observation>): set<Uri>
    requires AllTraced(rows)
  {
    set i | 0 <= i < |rows| :: rows[i].lineage.value
  }

  function GroupLineages(groups: seq<Group>): set<Uri> {
    set g | g in groups :: g.lineage
  }

  predicate Sound(groups: seq<Group>) {
    (forall i, j :: 0 <= i < j < |groups| ==> groups[i].lineage != groups[j].lineage) &&
    (forall i :: 0 <= i < |groups| ==> groups[i].rows != [])
  }

  lemma {:induction false} JoinRows(groups: seq<Group>, o: Observation)
    requires Traced(o)
    ensures Rows(Join(groups, o)) == Rows(groups) + 1
  {
    if groups != [] && groups[0].lineage != o.lineage.value {
      JoinRows(groups[1..], o);
      assert Join(groups, o)[1..] == Join(groups[1..], o);
    }
  }

  lemma {:induction false} JoinLineages(groups: seq<Group>, o: Observation)
    requires Traced(o)
    ensures Join(groups, o) != [] && GroupLineages(Join(groups, o)) == GroupLineages(groups) + {o.lineage.value}
  {
    var joined := Join(groups, o);
    HeadLineages(joined);
    if groups != [] {
      HeadLineages(groups);
      if groups[0].lineage == o.lineage.value {
        assert joined[1..] == groups[1..];
      } else {
        JoinLineages(groups[1..], o);
        assert joined[1..] == Join(groups[1..], o);
      }
    }
  }

  lemma {:induction false} JoinSound(groups: seq<Group>, o: Observation)
    requires Traced(o) && Sound(groups)
    ensures Sound(Join(groups, o))
  {
    if groups != [] && groups[0].lineage != o.lineage.value {
      JoinSound(groups[1..], o);
      JoinLineages(groups[1..], o);
      var rest := Join(groups[1..], o);
      forall j | 0 <= j < |rest| ensures rest[j].lineage != groups[0].lineage {
        assert rest[j] in rest && rest[j].lineage in GroupLineages(rest);
        if rest[j].lineage != o.lineage.value {
          var g :| g in groups[1..] && g.lineage == rest[j].lineage;
        }
      }
    }
  }

  lemma HeadLineages(groups: seq<Group>)
    requires groups != []
    ensures GroupLineages(groups) == {groups[0].lineage} + GroupLineages(groups[1..])
  {
    assert groups == [groups[0]] + groups[1..];
    assert forall g :: g in groups <==> g == groups[0] || g in groups[1..];
  }

  lemma LineagesAppend(rows: seq<Observation>, o: Observation)
    requires AllTraced(rows) && Traced(o)
    ensures AllTraced(rows + [o]) && Lineages(rows + [o]) == Lineages(rows) + {o.lineage.value}
  {
    var more := rows + [o];
    forall u | u in Lineages(rows) + {o.lineage.value} ensures u in Lineages(more) {
      if u in Lineages(rows) {
        var i :| 0 <= i < |rows| && rows[i].lineage.value == u;
        assert more[i] == rows[i];
      } else {
        assert more[|rows|] == o;
      }
    }
  }

  lemma {:induction false} GroupingConserves(rows: seq<Observation>)
    requires AllTraced(rows)
    ensures Sound(GroupBy(rows)) && Rows(GroupBy(rows)) == |rows| && GroupLineages(GroupBy(rows)) == Lineages(rows)
  {
    if rows != [] {
      GroupingConserves(rows[..|rows| - 1]);
      JoinSound(GroupBy(rows[..|rows| - 1]), rows[|rows| - 1]);
      JoinRows(GroupBy(rows[..|rows| - 1]), rows[|rows| - 1]);
      JoinLineages(GroupBy(rows[..|rows| - 1]), rows[|rows| - 1]);
      LineagesAppend(rows[..|rows| - 1], rows[|rows| - 1]);
      assert rows == rows[..|rows| - 1] + [rows[|rows| - 1]];
    }
  }

  lemma {:induction false} SoundCounts(groups: seq<Group>)
    requires Sound(groups)
    ensures |GroupLineages(groups)| == |groups|
    ensures |Suppressed(groups)| + |groups| == Rows(groups)
    ensures RepeatedRows(groups) + (|groups| - AtLeast(groups, 2)) == Rows(groups)
  {
    if groups != [] {
      SoundCounts(groups[1..]);
      HeadLineages(groups);
      forall g | g in groups[1..] ensures g.lineage != groups[0].lineage {}
    }
  }

  /** Suppression is conservation: what a quench would hide is every traced exposure but one for each distinct
      lineage; and the exposures of repeated lineages and the lineages seen once make up the rest. */
  lemma SuppressionConserves(input: seq<Observation>)
    ensures AllTraced(Traces(Unique(input)))
    ensures var a := AnalysisOf(input);
            a.lineages == |Lineages(Traces(Unique(input)))| && a.suppressed + a.lineages == a.determinate &&
            a.inRepeated + a.once == a.determinate && a.once + a.twoPlus == a.lineages && a.noEffect == a.once &&
            a.fivePlus <= a.threePlus <= a.twoPlus && a.total + a.duplicates == |input|
  {
    var rows := Traces(Unique(input));
    TracesAreTraced(Unique(input));
    GroupingConserves(rows);
    SoundCounts(GroupBy(rows));
    AtLeastBounds(GroupBy(rows), 2, 3);
    AtLeastBounds(GroupBy(rows), 3, 5);
    UniqueIsShorter(input);
  }

  lemma {:induction false} TracedOrNot(input: seq<Observation>)
    requires Valid(input)
    ensures |Traces(input)| + Untraced(input) == |input|
  {
    if input != [] { TracedOrNot(input[..|input| - 1]); }
  }

  lemma {:induction false} UniqueIsValid(input: seq<Observation>)
    ensures forall o :: o in Unique(input) ==> o in input
    ensures Valid(input) ==> Valid(Unique(input))
  {
    if input != [] { UniqueIsValid(input[..|input| - 1]); }
    var unique := Unique(input);
    forall i | 0 <= i < |unique| ensures unique[i] in input { assert unique[i] in unique; }
  }

  /** In a valid capture every exposure is either traced or not. */
  lemma ExposuresAreAccountedFor(input: seq<Observation>)
    requires Valid(input)
    ensures var a := AnalysisOf(input); a.determinate + a.indeterminate == a.total
  {
    UniqueIsValid(input);
    TracedOrNot(Unique(input));
  }

  // ----- the distribution -----

  function Weighted(distribution: map<nat, nat>, n: nat): nat {
    if n == 0 then 0 else Weighted(distribution, n - 1) + n * Count(distribution, n)
  }

  function Total(distribution: map<nat, nat>, n: nat): nat {
    Count(distribution, n) + if n == 0 then 0 else Total(distribution, n - 1)
  }

  lemma {:induction false} OneMore(d: map<nat, nat>, m: nat, n: nat)
    ensures Weighted(d[m := Count(d, m) + 1], n) == Weighted(d, n) + (if m <= n then m else 0)
    ensures Total(d[m := Count(d, m) + 1], n) == Total(d, n) + (if m <= n then 1 else 0)
  {
    if n > 0 { OneMore(d, m, n - 1); }
    assert n * (Count(d, n) + 1) == n * Count(d, n) + n;
  }

  lemma {:induction false} RowsAppend(groups: seq<Group>, g: Group)
    ensures Rows(groups + [g]) == Rows(groups) + |g.rows|
  {
    if groups != [] {
      assert (groups + [g])[1..] == groups[1..] + [g];
      RowsAppend(groups[1..], g);
    }
  }

  lemma {:induction false} DistributionSums(groups: seq<Group>, n: nat)
    requires Rows(groups) <= n
    ensures Weighted(Distribution(groups), n) == Rows(groups) && Total(Distribution(groups), n) == |groups|
  {
    if groups == [] {
      NothingSums(n);
    } else {
      var init, last := groups[..|groups| - 1], groups[|groups| - 1];
      assert groups == init + [last];
      RowsAppend(init, last);
      DistributionSums(init, n);
      OneMore(Distribution(init), |last.rows|, n);
    }
  }

  lemma {:induction false} NothingSums(n: nat)
    ensures Weighted(map[], n) == 0 && Total(map[], n) == 0
  {
    if n > 0 { NothingSums(n - 1); }
  }

  /** The distribution weighted by size gives back the traced exposures, unweighted the lineages. */
  lemma DistributionConserves(input: seq<Observation>)
    ensures var a := AnalysisOf(input);
            Weighted(a.distribution, a.determinate) == a.determinate && Total(a.distribution, a.determinate) == a.lineages
  {
    TracesAreTraced(Unique(input));
    GroupingConserves(Traces(Unique(input)));
    DistributionSums(GroupsOf(input), |Traces(Unique(input))|);
  }

  // ----- duplicates -----

  lemma IdsAppend(input: seq<Observation>, o: Observation)
    ensures Ids(input + [o]) == Ids(input) + {o.id}
  {
    assert forall x :: x in input + [o] <==> x in input || x == o;
  }

  lemma UniqueAppend(input: seq<Observation>, o: Observation)
    ensures Unique(input + [o]) == if o.id in Ids(input) then Unique(input) else Unique(input) + [o]
  {
    assert (input + [o])[..|input|] == input;
    assert Unique(input) + [] == Unique(input);
  }

  lemma {:induction false} DuplicateDisappears(before: seq<Observation>, o: Observation, after: seq<Observation>)
    requires o.id in Ids(before)
    ensures Unique(before + [o] + after) == Unique(before + after) && Ids(before + [o] + after) == Ids(before + after)
  {
    if after == [] {
      assert before + [o] + after == before + [o] && before + after == before;
      UniqueAppend(before, o);
      IdsAppend(before, o);
    } else {
      var init, last := after[..|after| - 1], after[|after| - 1];
      DuplicateDisappears(before, o, init);
      assert before + [o] + after == (before + [o] + init) + [last] && before + after == (before + init) + [last];
      UniqueAppend(before + [o] + init, last);
      UniqueAppend(before + init, last);
      IdsAppend(before + [o] + init, last);
      IdsAppend(before + init, last);
    }
  }

  /** A repeated observation id changes the count of duplicates and nothing else. */
  lemma DuplicatesOnlyCount(before: seq<Observation>, o: Observation, after: seq<Observation>)
    requires o.id in Ids(before)
    ensures AnalysisOf(before + [o] + after) == AnalysisOf(before + after).(duplicates := AnalysisOf(before + after).duplicates + 1)
  {
    DuplicateDisappears(before, o, after);
    UniqueIsShorter(before + after);
  }

  // ----- both feeds together -----

  function OfFeed(input: seq<Observation>, feed: Feed): seq<Observation> {
    if input == [] then []
    else OfFeed(input[..|input| - 1], feed) + if input[|input| - 1].feed == feed then [input[|input| - 1]] else []
  }

  /** No id is used by both feeds. */
  predicate SeparateIds(input: seq<Observation>) {
    forall i, j :: 0 <= i < |input| && 0 <= j < |input| && input[i].feed != input[j].feed ==> input[i].id != input[j].id
  }

  lemma {:induction false} OfFeedIn(input: seq<Observation>, feed: Feed)
    ensures forall o :: o in OfFeed(input, feed) <==> o in input && o.feed == feed
  {
    if input != [] {
      OfFeedIn(input[..|input| - 1], feed);
      assert input == input[..|input| - 1] + [input[|input| - 1]];
    }
  }

  lemma TracesAppend(rows: seq<Observation>, o: Observation)
    ensures Traces(rows + [o]) == if Traced(o) then Traces(rows) + [o] else Traces(rows)
  {
    assert (rows + [o])[..|rows|] == rows;
    assert Traces(rows) + [] == Traces(rows);
  }

  function TracedCount(input: seq<Observation>): nat {
    |Traces(Unique(input))|
  }

  function TracedLineages(input: seq<Observation>): set<Uri> {
    TracesAreTraced(Unique(input));
    Lineages(Traces(Unique(input)))
  }

  lemma TracedStep(input: seq<Observation>, o: Observation)
    ensures var counts := o.id !in Ids(input) && Traced(o);
            TracedCount(input + [o]) == TracedCount(input) + (if counts then 1 else 0) &&
            TracedLineages(input + [o]) == if counts then TracedLineages(input) + {o.lineage.value} else TracedLineages(input)
  {
    hide Unique, Traces, Lineages, Ids;
    UniqueAppend(input, o);
    TracesAreTraced(Unique(input));
    TracesAppend(Unique(input), o);
    if Traced(o) { LineagesAppend(Traces(Unique(input)), o); }
  }

  lemma OfFeedAppend(input: seq<Observation>, o: Observation, feed: Feed)
    ensures OfFeed(input + [o], feed) == if o.feed == feed then OfFeed(input, feed) + [o] else OfFeed(input, feed)
  {
    assert (input + [o])[..|input|] == input;
    assert OfFeed(input, feed) + [] == OfFeed(input, feed);
  }

  /** Traced exposures that are new to their own feed but whose id the capture has shown before, so that both
      together count them once. */
  function Merged(input: seq<Observation>): nat {
    if input == [] then 0
    else
      var init, last := input[..|input| - 1], input[|input| - 1];
      Merged(init) + if Traced(last) && last.id in Ids(init) && last.id !in Ids(OfFeed(init, last.feed)) then 1 else 0
  }

  lemma MergedAppend(input: seq<Observation>, o: Observation)
    ensures Merged(input + [o]) ==
            Merged(input) + if Traced(o) && o.id in Ids(input) && o.id !in Ids(OfFeed(input, o.feed)) then 1 else 0
  {
    assert (input + [o])[..|input|] == input;
  }

  lemma FeedIds(input: seq<Observation>, feed: Feed)
    ensures Ids(OfFeed(input, feed)) <= Ids(input)
  {
    OfFeedIn(input, feed);
  }

  lemma MergedStep(input: seq<Observation>, o: Observation)
    requires TracedCount(input) + Merged(input) == TracedCount(OfFeed(input, Home)) + TracedCount(OfFeed(input, Discover))
    ensures var more := input + [o];
            TracedCount(more) + Merged(more) == TracedCount(OfFeed(more, Home)) + TracedCount(OfFeed(more, Discover))
  {
    hide TracedCount, TracedLineages, OfFeed, Ids, Merged;
    FeedIds(input, o.feed);
    TracedStep(input, o);
    TracedStep(OfFeed(input, o.feed), o);
    OfFeedAppend(input, o, Home);
    OfFeedAppend(input, o, Discover);
    MergedAppend(input, o);
  }

  lemma NothingYet()
    ensures TracedCount([]) == 0 && Merged([]) == 0 && OfFeed([], Home) == [] && OfFeed([], Discover) == []
  {
  }

  /** Both feeds together count the traced exposures of each, but for the merged ones. */
  lemma {:induction false} MergedAccounts(input: seq<Observation>)
    ensures TracedCount(input) + Merged(input) == TracedCount(OfFeed(input, Home)) + TracedCount(OfFeed(input, Discover))
  {
    hide TracedCount, OfFeed, Merged, Ids;
    if input == [] {
      NothingYet();
    } else {
      var init, last := input[..|input| - 1], input[|input| - 1];
      MergedAccounts(init);
      MergedStep(init, last);
      assert input == init + [last];
    }
  }

  /** For every capture: what both feeds together suppress against what they suppress apart. Together suppresses
      at least as much exactly if the merged exposures are no more than the lineages counted twice apart. */
  lemma TogetherAgainstApart(input: seq<Observation>)
    ensures var home, discover := OfFeed(input, Home), OfFeed(input, Discover);
            var together, apart := AnalysisOf(input).suppressed, AnalysisOf(home).suppressed + AnalysisOf(discover).suppressed;
            together + Merged(input) + |TracedLineages(input)| == apart + |TracedLineages(home)| + |TracedLineages(discover)| &&
            (together >= apart <==>
               Merged(input) + |TracedLineages(input)| <= |TracedLineages(home)| + |TracedLineages(discover)|)
  {
    hide Unique, Traces, GroupsOf, OfFeed, Merged;
    MergedAccounts(input);
    SuppressionConserves(input);
    SuppressionConserves(OfFeed(input, Home));
    SuppressionConserves(OfFeed(input, Discover));
  }

  // ----- captures in which an id stands for one record -----

  /** One id is one record, whichever feeds show it. */
  predicate OneRecordPerId(input: seq<Observation>) {
    forall i, j :: 0 <= i < |input| && 0 <= j < |input| && input[i].id == input[j].id ==>
      input[i].determinate == input[j].determinate && input[i].lineage == input[j].lineage
  }

  ghost predicate Shows(input: seq<Observation>, u: Uri) {
    exists i :: 0 <= i < |input| && Traced(input[i]) && input[i].lineage.value == u
  }

  lemma ShowsAppend(input: seq<Observation>, o: Observation, u: Uri)
    ensures Shows(input + [o], u) <==> Shows(input, u) || (Traced(o) && o.lineage.value == u)
  {
    var more := input + [o];
    if Shows(input, u) {
      var i :| 0 <= i < |input| && Traced(input[i]) && input[i].lineage.value == u;
      assert more[i] == input[i];
    }
    assert more[|input|] == o;
  }

  lemma RepeatShows(input: seq<Observation>, o: Observation)
    requires OneRecordPerId(input + [o]) && o.id in Ids(input) && Traced(o)
    ensures Shows(input, o.lineage.value)
  {
    var x :| x in input && x.id == o.id;
    var i :| 0 <= i < |input| && input[i] == x;
    assert (input + [o])[i] == x && (input + [o])[|input|] == o;
  }

  lemma {:induction false} LineagesAreShown(input: seq<Observation>)
    requires OneRecordPerId(input)
    ensures forall u :: u in TracedLineages(input) <==> Shows(input, u)
  {
    if input == [] {
      NoIds();
    } else {
      var init, last := input[..|input| - 1], input[|input| - 1];
      assert input == init + [last];
      LineagesAreShown(init);
      TracedStep(init, last);
      if last.id in Ids(init) && Traced(last) { RepeatShows(init, last); }
      hide TracedLineages, TracedCount, Shows, Ids;
      forall u ensures u in TracedLineages(input) <==> Shows(input, u) { ShowsAppend(init, last, u); }
    }
  }

  lemma FeedKeepsRecords(input: seq<Observation>, feed: Feed)
    requires OneRecordPerId(input)
    ensures OneRecordPerId(OfFeed(input, feed))
  {
    var part := OfFeed(input, feed);
    OfFeedIn(input, feed);
    forall i, j | 0 <= i < |part| && 0 <= j < |part| && part[i].id == part[j].id
      ensures part[i].determinate == part[j].determinate && part[i].lineage == part[j].lineage
    {
      assert part[i] in part && part[j] in part;
    }
  }

  lemma ShownByAFeed(input: seq<Observation>, u: Uri)
    ensures Shows(input, u) <==> Shows(OfFeed(input, Home), u) || Shows(OfFeed(input, Discover), u)
  {
    OfFeedIn(input, Home);
    OfFeedIn(input, Discover);
    if Shows(input, u) {
      var i :| 0 <= i < |input| && Traced(input[i]) && input[i].lineage.value == u;
      assert input[i] in OfFeed(input, input[i].feed);
    }
    forall feed: Feed | Shows(OfFeed(input, feed), u) ensures Shows(input, u) {
      var i :| 0 <= i < |OfFeed(input, feed)| && Traced(OfFeed(input, feed)[i]) && OfFeed(input, feed)[i].lineage.value == u;
      assert OfFeed(input, feed)[i] in input;
    }
  }

  lemma UnionSize(a: set<Uri>, b: set<Uri>)
    ensures |a + b| + |a * b| == |a| + |b|
  {
  }

  /** Where an id stands for one record, both together suppress at least as much exactly if no more exposures
      merge than lineages are shown by both feeds. */
  lemma TogetherWithOneRecordPerId(input: seq<Observation>)
    requires OneRecordPerId(input)
    ensures var home, discover := OfFeed(input, Home), OfFeed(input, Discover);
            var together, apart := AnalysisOf(input).suppressed, AnalysisOf(home).suppressed + AnalysisOf(discover).suppressed;
            together + Merged(input) == apart + |TracedLineages(home) * TracedLineages(discover)| &&
            (together >= apart <==> Merged(input) <= |TracedLineages(home) * TracedLineages(discover)|)
  {
    var home, discover := OfFeed(input, Home), OfFeed(input, Discover);
    TogetherAgainstApart(input);
    LineagesAreShown(input);
    FeedKeepsRecords(input, Home);
    FeedKeepsRecords(input, Discover);
    LineagesAreShown(home);
    LineagesAreShown(discover);
    hide OfFeed, TracedLineages, AnalysisOf, Merged, Shows;
    forall u: Uri ensures Shows(input, u) <==> Shows(home, u) || Shows(discover, u) { ShownByAFeed(input, u); }
    assert TracedLineages(input) == TracedLineages(home) + TracedLineages(discover);
    UnionSize(TracedLineages(home), TracedLineages(discover));
  }

  // ----- captures in which the feeds share no ids -----

  lemma SameFeedIds(input: seq<Observation>, o: Observation)
    requires forall x :: x in input && x.feed != o.feed ==> x.id != o.id
    ensures o.id in Ids(input) <==> o.id in Ids(OfFeed(input, o.feed))
  {
    OfFeedIn(input, o.feed);
  }

  lemma SplitStep(input: seq<Observation>, o: Observation)
    requires forall x :: x in input && x.feed != o.feed ==> x.id != o.id
    requires Merged(input) == 0
    requires TracedLineages(input) == TracedLineages(OfFeed(input, Home)) + TracedLineages(OfFeed(input, Discover))
    ensures var more := input + [o];
            Merged(more) == 0 && TracedLineages(more) == TracedLineages(OfFeed(more, Home)) + TracedLineages(OfFeed(more, Discover))
  {
    hide TracedCount, TracedLineages, OfFeed, Ids, Merged;
    SameFeedIds(input, o);
    MergedAppend(input, o);
    TracedStep(input, o);
    TracedStep(OfFeed(input, o.feed), o);
    OfFeedAppend(input, o, Home);
    OfFeedAppend(input, o, Discover);
  }

  lemma {:induction false} NothingMerges(input: seq<Observation>)
    requires SeparateIds(input)
    ensures Merged(input) == 0
    ensures TracedLineages(input) == TracedLineages(OfFeed(input, Home)) + TracedLineages(OfFeed(input, Discover))
  {
    if input != [] {
      var init, last := input[..|input| - 1], input[|input| - 1];
      assert input == init + [last];
      NothingMerges(init);
      forall x | x in init && x.feed != last.feed ensures x.id != last.id {
        var i :| 0 <= i < |init| && init[i] == x;
        assert input[i] == x && input[|init|] == last;
      }
      hide TracedLineages, Merged;
      SplitStep(init, last);
    }
  }

  /** Where the feeds share no ids, looking at both together suppresses exactly one more exposure for each
      lineage that both feeds show: never less than the two feeds apart. */
  lemma TogetherSuppressesMore(input: seq<Observation>)
    requires SeparateIds(input)
    ensures var home, discover := OfFeed(input, Home), OfFeed(input, Discover);
            AnalysisOf(input).suppressed ==
              AnalysisOf(home).suppressed + AnalysisOf(discover).suppressed + |TracedLineages(home) * TracedLineages(discover)|
  {
    var home, discover := OfFeed(input, Home), OfFeed(input, Discover);
    hide AnalysisOf, OfFeed, TracedLineages, Merged;
    NothingMerges(input);
    TogetherAgainstApart(input);
    UnionSize(TracedLineages(home), TracedLineages(discover));
  }

  /** The sanitized form of a feed sample: the id digests the feed and the position with the post. */
  datatype Item = Item(position: nat, uri: Uri, cid: nat, author: Did, lineage: Option<Uri>, settled: bool)

  function Sanitized(feed: Feed, items: seq<Item>, observedAt: int): seq<Observation> {
    seq(|items|, i requires 0 <= i < |items| =>
      var determinate := items[i].settled && items[i].lineage.Some?;
      Observation(Digest(observedAt, feed, items[i].position, items[i].uri, items[i].cid), feed, items[i].author, determinate,
                  if determinate then items[i].lineage else None))
  }

  /** Sanitized captures are valid and never share ids between feeds. */
  lemma SanitizedIsSeparate(home: seq<Item>, discover: seq<Item>, observedAt: int)
    ensures var input := Sanitized(Home, home, observedAt) + Sanitized(Discover, discover, observedAt); Valid(input) && SeparateIds(input)
  {
    var a, b := Sanitized(Home, home, observedAt), Sanitized(Discover, discover, observedAt);
    var input: seq<Observation> := a + b;
    forall i | 0 <= i < |input| ensures input[i].id.Digest? && input[i].id.feed == input[i].feed && Valid([input[i]]) {
      if i < |a| { assert input[i] == a[i]; } else { assert input[i] == b[i - |a|]; }
    }
    forall i | 0 <= i < |input| && input[i].determinate ensures input[i].lineage.Some? {
      assert Valid([input[i]]) && [input[i]][0] == input[i];
    }
  }

  /** With an id in both feeds, together can suppress less than apart: two exposures merge, one lineage is shared. */
  lemma SharedIdsBreakIt(author: Did, lineage: Uri) returns (input: seq<Observation>)
    ensures Valid(input) && OneRecordPerId(input) && !SeparateIds(input)
    ensures AnalysisOf(input).suppressed < AnalysisOf(OfFeed(input, Home)).suppressed + AnalysisOf(OfFeed(input, Discover)).suppressed
  {
    hide AnalysisOf, OfFeed, Ids;
    var h0, h1 := Observation(Foreign(0), Home, author, true, Some(lineage)), Observation(Foreign(1), Home, author, true, Some(lineage));
    var d0, d1 := h0.(feed := Discover), h1.(feed := Discover);
    input := [h0, h1, d0, d1];
    assert input[0].id == input[2].id;
    FourObservations(h0, h1, d0, d1);
    TwoOfOneLineage(h0, h1);
    TwoOfOneLineage(d0, d1);
    RepeatsVanish(h0, h1, d0, d1);
  }

  lemma RepeatsVanish(h0: Observation, h1: Observation, d0: Observation, d1: Observation)
    requires d0.id == h0.id && d1.id == h1.id
    ensures AnalysisOf([h0, h1, d0, d1]).suppressed == AnalysisOf([h0, h1]).suppressed
  {
    hide AnalysisOf;
    assert h0 in [h0, h1] && h1 in [h0, h1, d0];
    DuplicatesOnlyCount([h0, h1], d0, []);
    DuplicatesOnlyCount([h0, h1, d0], d1, []);
    assert [h0, h1] + [d0] + [] == [h0, h1, d0] && [h0, h1] + [] == [h0, h1];
    assert [h0, h1, d0] + [d1] + [] == [h0, h1, d0, d1] && [h0, h1, d0] + [] == [h0, h1, d0];
  }

  lemma FourObservations(h0: Observation, h1: Observation, d0: Observation, d1: Observation)
    requires h0.feed == h1.feed == Home && d0.feed == d1.feed == Discover
    ensures OfFeed([h0, h1, d0, d1], Home) == [h0, h1] && OfFeed([h0, h1, d0, d1], Discover) == [d0, d1]
  {
    hide OfFeed;
    NothingYet();
    assert [] + [h0] == [h0] && [h0] + [h1] == [h0, h1] && [h0, h1] + [d0] == [h0, h1, d0] && [h0, h1, d0] + [d1] == [h0, h1, d0, d1];
    assert [] + [d0] == [d0] && [d0] + [d1] == [d0, d1];
    OfFeedAppend([], h0, Home);
    OfFeedAppend([h0], h1, Home);
    OfFeedAppend([h0, h1], d0, Home);
    OfFeedAppend([h0, h1, d0], d1, Home);
    OfFeedAppend([], h0, Discover);
    OfFeedAppend([h0], h1, Discover);
    OfFeedAppend([h0, h1], d0, Discover);
    OfFeedAppend([h0, h1, d0], d1, Discover);
  }

  lemma TwoOfOneLineage(a: Observation, b: Observation)
    requires Traced(a) && Traced(b) && a.lineage == b.lineage && a.id != b.id
    ensures AnalysisOf([a, b]).suppressed == 1
  {
    hide Ids, Unique, Traces, GroupsOf, Lineages;
    SuppressionConserves([a, b]);
    TracedStep([], a);
    TracedStep([a], b);
    assert [] + [a] == [a] && [a] + [b] == [a, b];
    NoIds();
    IdsAppend([], a);
    assert TracedLineages([a, b]) == {a.lineage.value};
  }

  lemma NoIds()
    ensures Ids([]) == {} && TracedCount([]) == 0 && TracedLineages([]) == {}
  {
  }

  // ----- the loops -----

  method UniqueOrdered(input: seq<Observation>) returns (observations: seq<Observation>)
    ensures observations == Unique(input)
  {
    var seen: set<Id> := {};
    observations := [];
    for i := 0 to |input|
      invariant observations == Unique(input[..i]) && seen == Ids(input[..i])
    {
      assert input[..i + 1] == input[..i] + [input[i]];
      UniqueAppend(input[..i], input[i]);
      IdsAppend(input[..i], input[i]);
      if input[i].id !in seen {
        seen := seen + {input[i].id};
        observations := observations + [input[i]];
      }
    }
    assert input[..|input|] == input;
  }

  lemma {:induction false} JoinAt(groups: seq<Group>, o: Observation, k: nat)
    requires Traced(o) && k <= |groups|
    requires forall i :: 0 <= i < k ==> groups[i].lineage != o.lineage.value
    requires k < |groups| ==> groups[k].lineage == o.lineage.value
    ensures Join(groups, o) == if k < |groups| then groups[k := groups[k].(rows := groups[k].rows + [o])] else groups + [Group(o.lineage.value, [o])]
  {
    if groups != [] && k > 0 { JoinAt(groups[1..], o, k - 1); }
  }

  /** Determinate observations by lineage, in the order of each lineage's first. */
  method GroupRows(rows: seq<Observation>) returns (groups: seq<Group>)
    requires AllTraced(rows)
    ensures groups == GroupBy(rows)
  {
    groups := [];
    for i := 0 to |rows|
      invariant groups == GroupBy(rows[..i])
    {
      var k := 0;
      while k < |groups| && groups[k].lineage != rows[i].lineage.value
        invariant 0 <= k <= |groups| && forall j :: 0 <= j < k ==> groups[j].lineage != rows[i].lineage.value
      {
        k := k + 1;
      }
      JoinAt(groups, rows[i], k);
      assert rows[..i + 1][..i] == rows[..i];
      groups := if k < |groups| then groups[k := groups[k].(rows := groups[k].rows + [rows[i]])]
                else groups + [Group(rows[i].lineage.value, [rows[i]])];
    }
    assert rows[..|rows|] == rows;
  }

  /** How many lineages have each number of exposures. */
  method Distribute(groups: seq<Group>) returns (distribution: map<nat, nat>)
    ensures distribution == Distribution(groups)
  {
    distribution := map[];
    for i := 0 to |groups|
      invariant distribution == Distribution(groups[..i])
    {
      assert groups[..i + 1][..i] == groups[..i];
      var n := |groups[i].rows|;
      distribution := distribution[n := Count(distribution, n) + 1];
    }
    assert groups[..|groups|] == groups;
  }

  method Analyze(input: seq<Observation>) returns (a: Analysis)
    ensures a == AnalysisOf(input)
    ensures a.suppressed + a.lineages == a.determinate && a.total + a.duplicates == |input|
  {
    SuppressionConserves(input);
    hide Unique, Traces, GroupBy, Distribution;
    var observations := UniqueOrdered(input);
    var groups := GroupRows(Traces(observations));
    var distribution := Distribute(groups);
    a := Analysis(|observations|, |input| - |observations|, |Traces(observations)|, Untraced(observations), |groups|, distribution,
                  |groups| - AtLeast(groups, 2), AtLeast(groups, 2), AtLeast(groups, 3), AtLeast(groups, 5), RepeatedRows(groups),
                  |Suppressed(groups)|, |groups| - AtLeast(groups, 2));
  }
}
