/** Compilation sorts rules by name, so a policy and its hash do not depend on the order in which
    the rules were written. */
module RuleOrder {
  import opened Policy

  /** Lexicographic order by code point. */
  predicate NameLess(a: string, b: string) {
    if b == [] then false
    else if a == [] then true
    else a[0] < b[0] || (a[0] == b[0] && NameLess(a[1..], b[1..]))
  }

  lemma {:induction false} NamesAreOrdered(a: string, b: string)
    ensures !(NameLess(a, b) && NameLess(b, a))
    ensures a == b || NameLess(a, b) || NameLess(b, a)
  {
    if a != [] && b != [] && a[0] == b[0] {
      NamesAreOrdered(a[1..], b[1..]);
      assert a == [a[0]] + a[1..] && b == [b[0]] + b[1..];
    }
  }

  lemma {:induction false} NameLessTransitive(a: string, b: string, c: string)
    requires NameLess(a, b) && NameLess(b, c)
    ensures NameLess(a, c)
  {
    if a != [] && a[0] == b[0] == c[0] {
      NameLessTransitive(a[1..], b[1..], c[1..]);
    }
  }

  predicate Sorted(rules: seq<Rule>) {
    forall i, j :: 0 <= i < j < |rules| ==> NameLess(rules[i].name, rules[j].name)
  }

  predicate UniqueNames(rules: seq<Rule>) {
    forall i, j :: 0 <= i < j < |rules| ==> rules[i].name != rules[j].name
  }

  function Insert(rule: Rule, rules: seq<Rule>): (r: seq<Rule>)
    ensures multiset(r) == multiset{rule} + multiset(rules)
  {
    if rules == [] then [rule]
    else if NameLess(rules[0].name, rule.name) then
      assert rules == [rules[0]] + rules[1..];
      [rules[0]] + Insert(rule, rules[1..])
    else [rule] + rules
  }

  function SortRules(rules: seq<Rule>): (r: seq<Rule>)
    ensures multiset(r) == multiset(rules)
  {
    if rules == [] then []
    else
      assert rules == [rules[0]] + rules[1..];
      Insert(rules[0], SortRules(rules[1..]))
  }

  lemma {:induction false} InsertSorted(rule: Rule, rules: seq<Rule>)
    requires Sorted(rules) && forall r :: r in rules ==> r.name != rule.name
    ensures Sorted(Insert(rule, rules))
  {
    if rules == [] {
    } else if NameLess(rules[0].name, rule.name) {
      var rest := Insert(rule, rules[1..]);
      InsertSorted(rule, rules[1..]);
      forall i | 0 <= i < |rest| ensures NameLess(rules[0].name, rest[i].name) {
        assert rest[i] in multiset(rest);
        assert rest[i] == rule || rest[i] in rules[1..];
      }
    } else {
      NamesAreOrdered(rules[0].name, rule.name);
      assert rules[0] in rules;
      forall i | 0 <= i < |rules| ensures NameLess(rule.name, rules[i].name) {
        if i > 0 { NameLessTransitive(rule.name, rules[0].name, rules[i].name); }
      }
    }
  }

  lemma {:induction false} SortRulesSorts(rules: seq<Rule>)
    requires UniqueNames(rules)
    ensures Sorted(SortRules(rules))
  {
    if rules != [] {
      SortRulesSorts(rules[1..]);
      forall r | r in SortRules(rules[1..]) ensures r.name != rules[0].name {
        assert r in multiset(rules[1..]);
      }
      InsertSorted(rules[0], SortRules(rules[1..]));
    }
  }

  lemma HeadIsLeast(a: seq<Rule>, r: Rule)
    requires Sorted(a) && r in a && r != a[0]
    ensures NameLess(a[0].name, r.name)
  {
  }

  lemma SameHead(a: seq<Rule>, b: seq<Rule>)
    requires Sorted(a) && Sorted(b) && multiset(a) == multiset(b) && a != [] && b != []
    ensures a[0] == b[0]
  {
    assert a[0] in multiset(b) && b[0] in multiset(a);
    if a[0] != b[0] {
      HeadIsLeast(a, b[0]);
      HeadIsLeast(b, a[0]);
      NamesAreOrdered(a[0].name, b[0].name);
      assert false;
    }
  }

  lemma SameTail(a: seq<Rule>, b: seq<Rule>)
    requires multiset(a) == multiset(b) && a != [] && b != [] && a[0] == b[0]
    ensures multiset(a[1..]) == multiset(b[1..])
  {
    assert a == [a[0]] + a[1..] && b == [b[0]] + b[1..];
    assert multiset(a[1..]) == multiset(a) - multiset{a[0]} && multiset(b[1..]) == multiset(b) - multiset{b[0]};
  }

  lemma {:induction false} SortedIsCanonical(a: seq<Rule>, b: seq<Rule>)
    requires Sorted(a) && Sorted(b) && multiset(a) == multiset(b)
    ensures a == b
  {
    hide NameLess;
    assert |a| == |multiset(a)| == |multiset(b)| == |b|;
    if a != [] {
      SameHead(a, b);
      SameTail(a, b);
      SortedIsCanonical(a[1..], b[1..]);
      assert a == [a[0]] + a[1..] && b == [b[0]] + b[1..];
    }
  }

  lemma {:induction false} OccursOnce(a: seq<Rule>, r: Rule)
    requires UniqueNames(a)
    ensures multiset(a)[r] <= 1
  {
    if a != [] {
      OccursOnce(a[1..], r);
      assert a[0] !in a[1..] by { assert forall k | 0 <= k < |a[1..]| :: a[1..][k] == a[k + 1]; }
      assert multiset(a) == multiset{a[0]} + multiset(a[1..]) by { assert a == [a[0]] + a[1..]; }
    }
  }

  lemma PermutedUnique(a: seq<Rule>, b: seq<Rule>)
    requires UniqueNames(a) && multiset(a) == multiset(b)
    ensures UniqueNames(b)
  {
    forall i, j | 0 <= i < j < |b| ensures b[i].name != b[j].name {
      if b[i].name == b[j].name {
        assert b[i] in multiset(a) && b[j] in multiset(a);
        assert b == b[..i] + [b[i]] + b[i + 1..j] + [b[j]] + b[j + 1..];
        OccursOnce(a, b[i]);
        assert false;
      }
    }
  }

  /** Any two orderings of the same rules compile to the same rule list, so to the same policy hash
      and to the same decisions. */
  lemma RuleOrderHasNoAuthority(written: seq<Rule>, reordered: seq<Rule>)
    requires UniqueNames(written) && multiset(written) == multiset(reordered)
    ensures SortRules(written) == SortRules(reordered)
    ensures SortRules(SortRules(written)) == SortRules(written)
  {
    PermutedUnique(written, reordered);
    SortRulesSorts(written);
    SortRulesSorts(reordered);
    SortedIsCanonical(SortRules(written), SortRules(reordered));
    PermutedUnique(written, SortRules(written));
    SortRulesSorts(SortRules(written));
    SortedIsCanonical(SortRules(SortRules(written)), SortRules(written));
  }
}
