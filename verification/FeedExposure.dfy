/** Bounded extraction of the authors a feed exposes, against the unbounded walk over its quote trees. */
module FeedExposure {
  import opened Wrappers
  import opened Sets

  /** Identifiers are only ever compared. */
  type Did = nat
  type Text = nat

  const MAX_PER_ITEM := 16

  /** A hydrated embed. Missing or malformed parts are None. */
  datatype Embed =
    | NotAnObject
    | Unrecognized
    | WithMedia(media: Embed)
    | RecordView(quoted: Quoted)

  datatype Quoted =
    | Unavailable
    | ViewRecord(author: Option<Did>, uri: Option<Text>, cid: Option<Text>, embeds: seq<Embed>)

  datatype Item = Item(author: Option<Did>, uri: Option<Text>, cid: Option<Text>, introducer: Option<Did>, embed: Option<Embed>)

  /** Where in a post an author was found. */
  datatype Path = PostAuthor | PostEmbed | Media(of: Path) | Nested(of: Path, index: nat) | QuotedAuthor(of: Path)

  datatype Key = Key(uri: Text, cid: Text, path: Path)

  datatype Mechanism = TopLevel | Repost | Quote

  datatype Exposure = Exposure(mechanism: Mechanism, subject: Did, introducer: Option<Did>, key: Key, position: nat)

  // ----- the unbounded walk -----

  predicate Complete(q: Quoted) {
    q.ViewRecord? && q.author.Some? && q.uri.Some? && q.cid.Some?
  }

  function QuoteOf(q: Quoted, path: Path, position: nat, quoting: Option<Did>): Exposure
    requires Complete(q)
  {
    Exposure(Quote, q.author.value, quoting, Key(q.uri.value, q.cid.value, QuotedAuthor(path)), position)
  }

  function Quotes(e: Embed, path: Path, position: nat, quoting: Option<Did>): set<Exposure>
    decreases e, 0
  {
    match e
    case NotAnObject | Unrecognized => {}
    case WithMedia(media) => Quotes(media, Media(path), position, quoting)
    case RecordView(Unavailable) => {}
    case RecordView(q) =>
      (if Complete(q) then {QuoteOf(q, path, position, quoting)} else {}) +
      EachQuotes(q.embeds, |q.embeds|, path, position, q.author)
  }

  /** Those of the first n nested embeds. */
  function EachQuotes(es: seq<Embed>, n: nat, path: Path, position: nat, quoting: Option<Did>): set<Exposure>
    requires n <= |es|
    decreases es, n
  {
    if n == 0 then {}
    else EachQuotes(es, n - 1, path, position, quoting) + Quotes(es[n - 1], Nested(path, n - 1), position, quoting)
  }

  predicate WellFormed(item: Item) {
    item.author.Some? && item.uri.Some? && item.cid.Some?
  }

  function TopOf(item: Item, position: nat): Exposure
    requires WellFormed(item)
  {
    Exposure(if item.introducer.Some? then Repost else TopLevel, item.author.value, item.introducer,
             Key(item.uri.value, item.cid.value, PostAuthor), position)
  }

  function OfItem(item: Item, position: nat): set<Exposure> {
    if !WellFormed(item) then {}
    else {TopOf(item, position)} + if item.embed.Some? then Quotes(item.embed.value, PostEmbed, position, item.author) else {}
  }

  function OfItems(items: seq<Item>): set<Exposure> {
    if items == [] then {} else OfItems(items[..|items| - 1]) + OfItem(items[|items| - 1], |items| - 1)
  }

  function Keys(es: set<Exposure>): set<Key> {
    set e | e in es :: e.key
  }

  // ----- what fits the bounds -----

  /** Nothing malformed and nothing deeper than the bound. */
  predicate Shallow(e: Embed, depth: nat, maxDepth: nat)
    decreases e, 0
  {
    e.NotAnObject? ||
    (depth <= maxDepth &&
     match e
     case Unrecognized | NotAnObject => true
     case WithMedia(media) => Shallow(media, depth, maxDepth)
     case RecordView(Unavailable) => true
     case RecordView(q) => Complete(q) && if depth == maxDepth then q.embeds == [] else EachShallow(q.embeds, |q.embeds|, depth + 1, maxDepth))
  }

  predicate EachShallow(es: seq<Embed>, n: nat, depth: nat, maxDepth: nat)
    requires n <= |es|
    decreases es, n
  {
    n == 0 || (EachShallow(es, n - 1, depth, maxDepth) && Shallow(es[n - 1], depth, maxDepth))
  }

  predicate Sound(item: Item, maxDepth: nat) {
    WellFormed(item) && (item.embed.Some? ==> Shallow(item.embed.value, 1, maxDepth))
  }

  /** Exactly the feeds whose extraction is complete: sound items, few enough new keys in each, few enough in all. */
  predicate Fits(items: seq<Item>, maxDepth: nat, maxOccurrences: nat) {
    AllFit(items, maxDepth) && |Keys(OfItems(items))| <= maxOccurrences
  }

  predicate AllFit(items: seq<Item>, maxDepth: nat) {
    forall i :: 0 <= i < |items| ==> ItemFits(items[i], items[..i], maxDepth)
  }

  predicate ItemFits(item: Item, before: seq<Item>, maxDepth: nat) {
    Sound(item, maxDepth) && |Keys(OfItem(item, |before|)) - Keys(OfItems(before))| <= MAX_PER_ITEM
  }

  lemma KeysUnion(a: set<Exposure>, b: set<Exposure>)
    ensures Keys(a + b) == Keys(a) + Keys(b)
  {
    forall k | k in Keys(a) + Keys(b) ensures k in Keys(a + b) {
      var e :| e in a + b && e.key == k;
    }
  }

  function AtPosition(es: seq<Exposure>, p: nat): nat {
    if es == [] then 0 else AtPosition(es[..|es| - 1], p) + if es[|es| - 1].position == p then 1 else 0
  }

  predicate Indexed(es: seq<Exposure>, keys: set<Key>, subjects: set<Did>) {
    (forall i, j :: 0 <= i < j < |es| ==> es[i].key != es[j].key) &&
    keys == (set e | e in es :: e.key) && subjects == (set e | e in es :: e.subject)
  }

  lemma IndexedAppend(es: seq<Exposure>, keys: set<Key>, subjects: set<Did>, e: Exposure)
    requires Indexed(es, keys, subjects) && e.key !in keys
    ensures Indexed(es + [e], keys + {e.key}, subjects + {e.subject})
  {
    var more := es + [e];
    assert forall x :: x in more <==> x in es || x == e;
    forall i, j | 0 <= i < j < |more| ensures more[i].key != more[j].key { assert more[i] in es; }
    assert keys + {e.key} == (set x | x in more :: x.key) by {
      forall k | k in keys + {e.key} ensures k in (set x | x in more :: x.key) {
        var x :| x in more && x.key == k;
      }
    }
    assert subjects + {e.subject} == (set x | x in more :: x.subject) by {
      forall d | d in subjects + {e.subject} ensures d in (set x | x in more :: x.subject) {
        var x :| x in more && x.subject == d;
      }
    }
  }

  /** Keys seen since the item began. */
  function NewKeys(seen: set<Key>, earlier: set<Key>): nat {
    |seen - earlier|
  }

  function Size(keys: set<Key>): nat {
    |keys|
  }

  predicate RoomFor(seen: set<Key>, earlier: set<Key>, keys: set<Key>, maxOccurrences: nat) {
    NewKeys(seen + keys, earlier) <= MAX_PER_ITEM && Size(seen + keys) <= maxOccurrences
  }

  lemma RoomForOne(seen: set<Key>, earlier: set<Key>, k: Key, maxOccurrences: nat)
    requires earlier <= seen && NewKeys(seen, earlier) <= MAX_PER_ITEM && Size(seen) <= maxOccurrences
    ensures k in seen ==> RoomFor(seen, earlier, {k}, maxOccurrences)
    ensures k !in seen ==>
              (RoomFor(seen, earlier, {k}, maxOccurrences) <==> NewKeys(seen, earlier) < MAX_PER_ITEM && Size(seen) < maxOccurrences)
    ensures k !in seen ==> NewKeys(seen + {k}, earlier) == NewKeys(seen, earlier) + 1 && Size(seen + {k}) == Size(seen) + 1
  {
    if k in seen {
      assert seen + {k} == seen;
    } else {
      assert (seen + {k}) - earlier == (seen - earlier) + {k};
    }
  }

  /** Room for two sets of keys is room for the first, then for the second. */
  lemma RoomSplits(seen: set<Key>, earlier: set<Key>, a: set<Key>, b: set<Key>, maxOccurrences: nat)
    ensures RoomFor(seen, earlier, a + b, maxOccurrences) ==> RoomFor(seen, earlier, a, maxOccurrences)
    ensures RoomFor(seen, earlier, a + b, maxOccurrences) <==> RoomFor(seen + a, earlier, b, maxOccurrences)
  {
    assert seen + (a + b) == (seen + a) + b;
    SubsetIsSmaller(seen + a, seen + (a + b));
    SubsetIsSmaller((seen + a) - earlier, (seen + (a + b)) - earlier);
  }

  lemma NoKeys(seen: set<Key>, earlier: set<Key>, maxOccurrences: nat)
    requires NewKeys(seen, earlier) <= MAX_PER_ITEM && Size(seen) <= maxOccurrences
    ensures Keys({}) == {} && seen + {} == seen && RoomFor(seen, earlier, {}, maxOccurrences)
  {
    assert seen + {} == seen;
  }

  lemma OneKey(e: Exposure)
    ensures Keys({e}) == {e.key}
  {
    assert e in {e};
  }

  class Extractor {
    const maxDepth: nat
    const maxOccurrences: nat
    var exposures: seq<Exposure>
    var subjects: set<Did>
    var occurrences: set<Key>
    var complete: bool
    var itemOccurrences: nat
    ghost var earlier: set<Key>

    ghost predicate Valid()
      reads this
    {
      Distinct() && Counted()
    }

    /** One exposure for each key seen, and one subject for each exposed author. */
    ghost predicate Distinct()
      reads this
    {
      Indexed(exposures, occurrences, subjects)
    }

    ghost predicate Counted()
      reads this
    {
      |exposures| == Size(occurrences) <= maxOccurrences && earlier <= occurrences &&
      itemOccurrences == NewKeys(occurrences, earlier) <= MAX_PER_ITEM
    }

    constructor (maxDepth: nat, maxOccurrences: nat)
      ensures Valid() && exposures == [] && complete && this.maxDepth == maxDepth && this.maxOccurrences == maxOccurrences
      ensures earlier == {}
    {
      this.maxDepth, this.maxOccurrences := maxDepth, maxOccurrences;
      exposures, subjects, occurrences, complete, itemOccurrences, earlier := [], {}, {}, true, 0, {};
    }

    /** The bounds leave room for these keys too. */
    ghost predicate Room(keys: set<Key>)
      reads this
    {
      RoomFor(occurrences, earlier, keys, maxOccurrences)
    }

    method Record(e: Exposure)
      requires Valid() && e.key !in occurrences && itemOccurrences < MAX_PER_ITEM && |exposures| < maxOccurrences
      modifies this`exposures, this`subjects, this`occurrences, this`itemOccurrences
      ensures Valid() && exposures == old(exposures) + [e] && occurrences == old(occurrences) + {e.key}
    {
      hide Indexed, RoomFor, NewKeys, Size;
      RoomForOne(occurrences, earlier, e.key, maxOccurrences);
      IndexedAppend(exposures, occurrences, subjects, e);
      exposures := exposures + [e];
      subjects := subjects + {e.subject};
      occurrences := occurrences + {e.key};
      itemOccurrences := itemOccurrences + 1;
    }

    /** A key already seen costs nothing; a new one is dropped when the item or the whole is full. */
    method Add(e: Exposure)
      requires Valid()
      modifies this`exposures, this`subjects, this`occurrences, this`complete, this`itemOccurrences
      ensures Valid() && (exposures == old(exposures) || exposures == old(exposures) + [e])
      ensures occurrences <= old(occurrences) + {e.key}
      ensures complete <==> old(complete) && old(Room({e.key}))
      ensures complete ==> occurrences == old(occurrences) + {e.key}
    {
      hide RoomFor, Indexed, NewKeys, Size;
      RoomForOne(occurrences, earlier, e.key, maxOccurrences);
      if e.key in occurrences { return; }
      if itemOccurrences >= MAX_PER_ITEM || |exposures| >= maxOccurrences {
        complete := false;
        return;
      }
      Record(e);
    }

    /** What a visit did: which exposures it added, and exactly when the extraction is still complete. */
    twostate predicate Visited(found: set<Exposure>, sound: bool)
      reads this
    {
      old(exposures) <= exposures && earlier == old(earlier) &&
      (forall i :: old(|exposures|) <= i < |exposures| ==> exposures[i] in found) &&
      (complete <==> old(complete) && sound && old(Room(Keys(found)))) &&
      (complete ==> occurrences == old(occurrences) + Keys(found))
    }

    method VisitEmbed(e: Embed, path: Path, depth: nat, position: nat, quoting: Option<Did>)
      requires Valid()
      modifies this`exposures, this`subjects, this`occurrences, this`complete, this`itemOccurrences
      ensures Valid() && Visited(Quotes(e, path, position, quoting), Shallow(e, depth, maxDepth))
      decreases e, 0
    {
      hide RoomFor, NewKeys, Size, Indexed, Keys;
      NoKeys(occurrences, earlier, maxOccurrences);
      if e.NotAnObject? { return; }
      if depth > maxDepth {
        complete := false;
        return;
      }
      match e
      case Unrecognized =>
      case WithMedia(media) => VisitEmbed(media, Media(path), depth, position, quoting);
      case RecordView(quoted) => VisitQuote(quoted, path, depth, position, quoting);
    }

    method VisitQuote(q: Quoted, path: Path, depth: nat, position: nat, quoting: Option<Did>)
      requires Valid() && depth <= maxDepth
      modifies this`exposures, this`subjects, this`occurrences, this`complete, this`itemOccurrences
      ensures Valid() && Visited(Quotes(RecordView(q), path, position, quoting), Shallow(RecordView(q), depth, maxDepth))
      decreases q
    {
      hide RoomFor, NewKeys, Size, Indexed, Keys;
      NoKeys(occurrences, earlier, maxOccurrences);
      if q.Unavailable? { return; }
      ghost var nested := EachQuotes(q.embeds, |q.embeds|, path, position, q.author);
      ghost var own := if Complete(q) then {QuoteOf(q, path, position, quoting)} else {};
      assert Quotes(RecordView(q), path, position, quoting) == own + nested;
      KeysUnion(own, nested);
      RoomSplits(occurrences, earlier, Keys(own), Keys(nested), maxOccurrences);
      if q.embeds == [] {
        assert nested == {};
        assert Keys(own) + Keys(nested) == Keys(own);
      }
      if Complete(q) {
        OneKey(QuoteOf(q, path, position, quoting));
        Add(QuoteOf(q, path, position, quoting));
      } else {
        complete := false;
      }
      if depth == maxDepth {
        if q.embeds != [] { complete := false; }
        return;
      }
      VisitEach(q.embeds, path, depth + 1, position, q.author);
    }

    method VisitEach(es: seq<Embed>, path: Path, depth: nat, position: nat, quoting: Option<Did>)
      requires Valid()
      modifies this`exposures, this`subjects, this`occurrences, this`complete, this`itemOccurrences
      ensures Valid() && Visited(EachQuotes(es, |es|, path, position, quoting), EachShallow(es, |es|, depth, maxDepth))
      decreases es
    {
      hide RoomFor, NewKeys, Size, Indexed, Keys;
      NoKeys(occurrences, earlier, maxOccurrences);
      for i := 0 to |es|
        invariant Valid() && Visited(EachQuotes(es, i, path, position, quoting), EachShallow(es, i, depth, maxDepth))
      {
        ghost var before := EachQuotes(es, i, path, position, quoting);
        ghost var here := Quotes(es[i], Nested(path, i), position, quoting);
        KeysUnion(before, here);
        RoomSplits(old(occurrences), earlier, Keys(before), Keys(here), maxOccurrences);
        VisitEmbed(es[i], Nested(path, i), depth, position, quoting);
      }
    }

    /** One feed item: its author, then the quotes in its embed. */
    method VisitItem(item: Item, position: nat)
      requires Valid() && earlier == occurrences && itemOccurrences == 0
      modifies this`exposures, this`subjects, this`occurrences, this`complete, this`itemOccurrences
      ensures Valid() && Visited(OfItem(item, position), Sound(item, maxDepth))
    {
      hide RoomFor, NewKeys, Size, Indexed, Keys;
      NoKeys(occurrences, earlier, maxOccurrences);
      if !WellFormed(item) {
        complete := false;
        return;
      }
      ghost var top := {TopOf(item, position)};
      ghost var quotes := if item.embed.Some? then Quotes(item.embed.value, PostEmbed, position, item.author) else {};
      assert OfItem(item, position) == top + quotes;
      KeysUnion(top, quotes);
      RoomSplits(occurrences, earlier, Keys(top), Keys(quotes), maxOccurrences);
      OneKey(TopOf(item, position));
      if item.embed.None? { assert Keys(top) + Keys(quotes) == Keys(top); }
      Add(TopOf(item, position));
      if item.embed.Some? {
        VisitEmbed(item.embed.value, PostEmbed, 1, position, item.author);
      }
    }

    method BeginItem()
      requires Valid()
      modifies this`itemOccurrences, this`earlier
      ensures Valid() && earlier == occurrences && itemOccurrences == 0
    {
      NothingNew(occurrences);
      hide Indexed, NewKeys, Size;
      itemOccurrences := 0;
      earlier := occurrences;
    }
  }

  lemma NothingNew(keys: set<Key>)
    ensures NewKeys(keys, keys) == 0
  {
    assert keys - keys == {};
  }

  lemma {:induction false} QuotesAreAt(e: Embed, path: Path, position: nat, quoting: Option<Did>)
    ensures forall x :: x in Quotes(e, path, position, quoting) ==> x.position == position
    decreases e, 0
  {
    match e
    case WithMedia(media) => QuotesAreAt(media, Media(path), position, quoting);
    case RecordView(ViewRecord(author, _, _, embeds)) => EachQuotesAreAt(embeds, |embeds|, path, position, author);
    case _ =>
  }

  lemma {:induction false} EachQuotesAreAt(es: seq<Embed>, n: nat, path: Path, position: nat, quoting: Option<Did>)
    requires n <= |es|
    ensures forall x :: x in EachQuotes(es, n, path, position, quoting) ==> x.position == position
    decreases es, n
  {
    if n > 0 {
      EachQuotesAreAt(es, n - 1, path, position, quoting);
      QuotesAreAt(es[n - 1], Nested(path, n - 1), position, quoting);
    }
  }

  lemma OfItemIsAt(item: Item, position: nat)
    ensures forall x :: x in OfItem(item, position) ==> x.position == position
  {
    if item.embed.Some? { QuotesAreAt(item.embed.value, PostEmbed, position, item.author); }
  }

  lemma {:induction false} AtPositionSplit(a: seq<Exposure>, b: seq<Exposure>, p: nat)
    requires forall i :: 0 <= i < |b| ==> b[i].position == b[0].position
    ensures AtPosition(a + b, p) == AtPosition(a, p) + if b != [] && b[0].position == p then |b| else 0
  {
    if b == [] {
      assert a + b == a;
    } else {
      assert (a + b)[..|a + b| - 1] == a + b[..|b| - 1];
      AtPositionSplit(a, b[..|b| - 1], p);
    }
  }

  lemma {:induction false} NoneAtPosition(a: seq<Exposure>, p: nat)
    requires forall i :: 0 <= i < |a| ==> a[i].position < p
    ensures AtPosition(a, p) == 0
  {
    if a != [] { NoneAtPosition(a[..|a| - 1], p); }
  }

  lemma ItemsStep(items: seq<Item>, i: nat)
    requires i < |items|
    ensures OfItems(items[..i + 1]) == OfItems(items[..i]) + OfItem(items[i], i)
    ensures Keys(OfItems(items[..i + 1])) == Keys(OfItems(items[..i])) + Keys(OfItem(items[i], i))
  {
    assert items[..i + 1][..i] == items[..i];
    KeysUnion(OfItems(items[..i]), OfItem(items[i], i));
  }

  /** One more item: the bounds that matter are those of its own new keys and of the total. */
  lemma FitsStep(items: seq<Item>, i: nat, maxDepth: nat, maxOccurrences: nat)
    requires i < |items|
    ensures var seen := Keys(OfItems(items[..i]));
            Fits(items[..i + 1], maxDepth, maxOccurrences) <==>
              Fits(items[..i], maxDepth, maxOccurrences) && Sound(items[i], maxDepth) &&
              RoomFor(seen, seen, Keys(OfItem(items[i], i)), maxOccurrences)
  {
    hide Sound, OfItems, OfItem, Keys;
    ItemsStep(items, i);
    var seen, here := Keys(OfItems(items[..i])), Keys(OfItem(items[i], i));
    assert (seen + here) - seen == here - seen;
    SubsetIsSmaller(seen, seen + here);
    AllFitStep(items, i, maxDepth);
  }

  lemma AllFitStep(items: seq<Item>, i: nat, maxDepth: nat)
    requires i < |items|
    ensures AllFit(items[..i + 1], maxDepth) <==> AllFit(items[..i], maxDepth) && ItemFits(items[i], items[..i], maxDepth)
  {
    hide ItemFits;
    var more, less := items[..i + 1], items[..i];
    assert forall k :: 0 <= k < i ==> more[k] == less[k] && more[..k] == less[..k];
    assert more[i] == items[i] && more[..i] == less;
  }

  /** Each item adds at most sixteen exposures, all at its own position. */
  lemma ItemAddsFew(before: seq<Exposure>, after: seq<Exposure>, item: Item, position: nat, p: nat)
    requires before <= after && |after| - |before| <= MAX_PER_ITEM && AtPosition(before, p) <= MAX_PER_ITEM
    requires forall i :: 0 <= i < |before| ==> before[i].position < position
    requires forall i :: |before| <= i < |after| ==> after[i] in OfItem(item, position)
    ensures AtPosition(after, p) <= MAX_PER_ITEM
    ensures forall i :: 0 <= i < |after| ==> after[i].position <= position
  {
    OfItemIsAt(item, position);
    assert after == before + after[|before|..];
    AtPositionSplit(before, after[|before|..], p);
    if p == position { NoneAtPosition(before, p); }
  }

  lemma NewIsGrowth(earlier: set<Key>, seen: set<Key>)
    requires earlier <= seen
    ensures NewKeys(seen, earlier) == Size(seen) - Size(earlier)
  {
    assert seen == earlier + (seen - earlier);
  }

  /** All items in order. The result holds each key once, only what the unbounded walk finds, at most sixteen
      exposures of an item and no more than the total; and it is complete exactly when the feed fits. */
  method Extract(items: seq<Item>, maxDepth: nat, maxOccurrences: nat)
    returns (exposures: seq<Exposure>, subjects: set<Did>, complete: bool)
    ensures forall i, j :: 0 <= i < j < |exposures| ==> exposures[i].key != exposures[j].key
    ensures forall i :: 0 <= i < |exposures| ==> exposures[i] in OfItems(items)
    ensures subjects == set e | e in exposures :: e.subject
    ensures |exposures| <= maxOccurrences && forall p: nat :: AtPosition(exposures, p) <= MAX_PER_ITEM
    ensures complete <==> Fits(items, maxDepth, maxOccurrences)
    ensures complete ==> (set e | e in exposures :: e.key) == Keys(OfItems(items))
  {
    hide Fits, Sound, OfItem, OfItems, Keys, RoomFor, NewKeys, AtPosition;
    var x := new Extractor(maxDepth, maxOccurrences);
    NothingFits(maxDepth, maxOccurrences);
    assert items[..0] == [];
    for i := 0 to |items|
      invariant x.Valid() && x.maxDepth == maxDepth && x.maxOccurrences == maxOccurrences
      invariant forall k :: 0 <= k < |x.exposures| ==> x.exposures[k].position < i && x.exposures[k] in OfItems(items[..i])
      invariant forall p: nat :: AtPosition(x.exposures, p) <= MAX_PER_ITEM
      invariant x.complete <==> Fits(items[..i], maxDepth, maxOccurrences)
      invariant x.complete ==> x.occurrences == Keys(OfItems(items[..i]))
    {
      ghost var before := x.exposures;
      x.BeginItem();
      ItemsStep(items, i);
      FitsStep(items, i, maxDepth, maxOccurrences);
      x.VisitItem(items[i], i);
      NewIsGrowth(x.earlier, x.occurrences);
      forall p: nat ensures AtPosition(x.exposures, p) <= MAX_PER_ITEM && forall k :: 0 <= k < |x.exposures| ==> x.exposures[k].position <= i {
        ItemAddsFew(before, x.exposures, items[i], i, p);
      }
      forall k | 0 <= k < |x.exposures| ensures x.exposures[k] in OfItems(items[..i + 1]) && x.exposures[k].position < i + 1 {
        assert AtPosition(x.exposures, 0) <= MAX_PER_ITEM;
        if k < |before| { assert x.exposures[k] == before[k]; }
      }
    }
    assert items[..|items|] == items;
    exposures, subjects, complete := x.exposures, x.subjects, x.complete;
  }

  lemma NothingFits(maxDepth: nat, maxOccurrences: nat)
    ensures Fits([], maxDepth, maxOccurrences) && Keys(OfItems([])) == {} && forall p: nat :: AtPosition([], p) == 0
  {
    assert Keys({}) == {};
  }
}
