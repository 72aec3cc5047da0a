/**
 * Ordered, first-match rule tables: the control structure shared by the classifier and
 * by the briefing heuristics. Each table is an ordered list of (condition, result) rows;
 * the first row whose condition holds decides, and the rows after it are not consulted.
 * These definitions are the reference the if-chains of the source are proved against.
 */
module Rules {
  import opened Wrappers
  import opened Strings

  /** One row of a rule table: whether its condition holds, and what it yields then. */
  datatype Rule<T> = Rule(fires: bool, result: T)

  /** The index of the first row that fires, or `|rules|` when none does. */
  function FirstFiring<T>(rules: seq<Rule<T>>): nat
    decreases |rules|
  {
    if |rules| == 0 then 0
    else if rules[0].fires then 0
    else 1 + FirstFiring(rules[1..])
  }

  /** The result of the first row that fires, or `default` when none does. */
  function FirstMatch<T>(rules: seq<Rule<T>>, default: T): T {
    var k := FirstFiring(rules);
    if k < |rules| then rules[k].result else default
  }

  /** `FirstFiring` finds a firing row with no firing row before it, or reports that none fires. */
  lemma {:induction false} FirstFiringSpec<T>(rules: seq<Rule<T>>)
    ensures FirstFiring(rules) <= |rules|
    ensures forall j :: 0 <= j < FirstFiring(rules) ==> !rules[j].fires
    ensures FirstFiring(rules) < |rules| ==> rules[FirstFiring(rules)].fires
    decreases |rules|
  {
    if |rules| > 0 && !rules[0].fires {
      FirstFiringSpec(rules[1..]);
      assert forall j :: 1 <= j < |rules| ==> rules[1..][j - 1] == rules[j];
    }
  }

  /** The first firing row decides. */
  lemma FirstMatchAt<T>(rules: seq<Rule<T>>, default: T, k: nat)
    requires k < |rules| && rules[k].fires
    requires forall j :: 0 <= j < k ==> !rules[j].fires
    ensures FirstMatch(rules, default) == rules[k].result
  {
    FirstFiringSpec(rules);
  }

  /** With no firing row, the default decides. */
  lemma FirstMatchNone<T>(rules: seq<Rule<T>>, default: T)
    requires forall j :: 0 <= j < |rules| ==> !rules[j].fires
    ensures FirstMatch(rules, default) == default
  {
    FirstFiringSpec(rules);
  }

  /** A table is its first row, then the rest of the table. */
  lemma FirstMatchCons<T>(rules: seq<Rule<T>>, default: T)
    requires |rules| > 0
    ensures FirstMatch(rules, default) ==
      if rules[0].fires then rules[0].result else FirstMatch(rules[1..], default)
  {
    if !rules[0].fires {
      assert FirstFiring(rules) == 1 + FirstFiring(rules[1..]);
    }
  }

  /** The table from row `k` on: row `k`, then the table from row `k + 1` on. */
  lemma FirstMatchFrom<T>(rules: seq<Rule<T>>, default: T, k: nat)
    requires k <= |rules|
    ensures k == |rules| ==> FirstMatch(rules[k..], default) == default
    ensures k < |rules| ==>
      FirstMatch(rules[k..], default) == if rules[k].fires then rules[k].result else FirstMatch(rules[k + 1..], default)
  {
    if k < |rules| {
      FirstMatchCons(rules[k..], default);
      assert rules[k..][1..] == rules[k + 1..];
    }
  }

  /** `xs.find(p)`, as the index of the first element satisfying `p`. */
  function Find<T>(xs: seq<T>, p: T -> bool): (r: Option<nat>)
    ensures r.Some? ==> r.value < |xs| && p(xs[r.value]) && forall j :: 0 <= j < r.value ==> !p(xs[j])
    ensures r.None? <==> forall j :: 0 <= j < |xs| ==> !p(xs[j])
  {
    FindFrom(xs, p, 0)
  }

  /** The first index at or after `i` whose element satisfies `p`. */
  function FindFrom<T>(xs: seq<T>, p: T -> bool, i: nat): (r: Option<nat>)
    requires i <= |xs|
    requires forall j :: 0 <= j < i ==> !p(xs[j])
    ensures r.Some? ==> i <= r.value < |xs| && p(xs[r.value]) && forall j :: 0 <= j < r.value ==> !p(xs[j])
    ensures r.None? <==> forall j :: 0 <= j < |xs| ==> !p(xs[j])
    decreases |xs| - i
  {
    if i == |xs| then None
    else if p(xs[i]) then Some(i)
    else FindFrom(xs, p, i + 1)
  }

  /** `xs.filter(p)`: the elements satisfying `p`, in order (defined on prefixes, like a loop). */
  function Filter<T(!new)>(xs: seq<T>, p: T -> bool): (r: seq<T>)
    ensures |r| <= |xs|
    ensures forall x :: x in r <==> x in xs && p(x)
    decreases |xs|
  {
    if xs == [] then []
    else
      var init := xs[..|xs| - 1];
      assert xs == init + [xs[|xs| - 1]];
      Filter(init, p) + (if p(xs[|xs| - 1]) then [xs[|xs| - 1]] else [])
  }

  /** The filter takes each element at most as often as its input holds it. */
  lemma {:induction false} FilterMultiset<T(!new)>(xs: seq<T>, p: T -> bool)
    ensures multiset(Filter(xs, p)) <= multiset(xs)
    decreases |xs|
  {
    if xs != [] {
      var init := xs[..|xs| - 1];
      FilterMultiset(init, p);
      assert xs == init + [xs[|xs| - 1]];
    }
  }

  /** Elements `i` and `j` of `r` occur in `xs` at increasing positions. */
  ghost predicate FromIncreasingPositions<T>(xs: seq<T>, r: seq<T>, i: int, j: int)
    requires 0 <= i < j < |r|
  {
    exists a, b :: 0 <= a < b < |xs| && xs[a] == r[i] && xs[b] == r[j]
  }

  /** The filter keeps the order of its input: kept elements come from increasing positions. */
  lemma {:induction false} FilterKeepsOrder<T(!new)>(xs: seq<T>, p: T -> bool)
    ensures forall i, j :: 0 <= i < j < |Filter(xs, p)| ==> FromIncreasingPositions(xs, Filter(xs, p), i, j)
    decreases |xs|
  {
    if xs != [] {
      var init := xs[..|xs| - 1];
      var r := Filter(xs, p);
      var ri := Filter(init, p);
      FilterKeepsOrder(init, p);
      assert r == ri + (if p(xs[|xs| - 1]) then [xs[|xs| - 1]] else []);
      forall i, j | 0 <= i < j < |r| ensures FromIncreasingPositions(xs, r, i, j) {
        assert r[i] == ri[i];
        if j < |ri| {
          assert FromIncreasingPositions(init, ri, i, j);
          var a, b :| 0 <= a < b < |init| && init[a] == ri[i] && init[b] == ri[j];
          assert xs[a] == r[i] && xs[b] == r[j];
        } else {
          assert r[i] in ri;
          var a :| 0 <= a < |init| && init[a] == r[i];
          assert xs[a] == r[i] && xs[|xs| - 1] == r[j];
        }
      }
    }
  }

  /** The positions in `xs` of the elements `Filter(xs, p)` keeps, in order. */
  ghost function FilterPositions<T(!new)>(xs: seq<T>, p: T -> bool): seq<nat>
    decreases |xs|
  {
    if xs == [] then []
    else FilterPositions(xs[..|xs| - 1], p) + (if p(xs[|xs| - 1]) then [|xs| - 1] else [])
  }

  /**
   * The filter is a strictly increasing index map into its input, so order is kept even among
   * equal elements: element `i` of the result is `xs[pos[i]]`, and every position whose
   * element passes `p` is in the map.
   */
  lemma FilterPositionsSpec<T(!new)>(xs: seq<T>, p: T -> bool)
    ensures |FilterPositions(xs, p)| == |Filter(xs, p)|
    ensures forall i :: 0 <= i < |FilterPositions(xs, p)| ==>
      FilterPositions(xs, p)[i] < |xs| && xs[FilterPositions(xs, p)[i]] == Filter(xs, p)[i]
    ensures forall i, j :: 0 <= i < j < |FilterPositions(xs, p)| ==> FilterPositions(xs, p)[i] < FilterPositions(xs, p)[j]
    ensures forall k :: 0 <= k < |xs| && p(xs[k]) ==> k in FilterPositions(xs, p)
  {
    FilterPositionsMap(xs, p);
    FilterPositionsIncreasing(xs, p);
    FilterPositionsComplete(xs, p);
  }

  lemma {:induction false} FilterPositionsMap<T(!new)>(xs: seq<T>, p: T -> bool)
    ensures |FilterPositions(xs, p)| == |Filter(xs, p)|
    ensures forall i :: 0 <= i < |FilterPositions(xs, p)| ==>
      FilterPositions(xs, p)[i] < |xs| && xs[FilterPositions(xs, p)[i]] == Filter(xs, p)[i]
    decreases |xs|
  {
    if xs != [] {
      var init := xs[..|xs| - 1];
      FilterPositionsMap(init, p);
      var pos, pi := FilterPositions(xs, p), FilterPositions(init, p);
      var r, ri := Filter(xs, p), Filter(init, p);
      assert pos == pi + (if p(xs[|xs| - 1]) then [|xs| - 1] else []);
      assert r == ri + (if p(xs[|xs| - 1]) then [xs[|xs| - 1]] else []);
      forall i | 0 <= i < |pos| ensures pos[i] < |xs| && xs[pos[i]] == r[i] {
        if i < |pi| {
          assert pos[i] == pi[i] && r[i] == ri[i];
          assert xs[pi[i]] == init[pi[i]];
        }
      }
    }
  }

  lemma {:induction false} FilterPositionsIncreasing<T(!new)>(xs: seq<T>, p: T -> bool)
    ensures forall i :: 0 <= i < |FilterPositions(xs, p)| ==> FilterPositions(xs, p)[i] < |xs|
    ensures forall i, j :: 0 <= i < j < |FilterPositions(xs, p)| ==> FilterPositions(xs, p)[i] < FilterPositions(xs, p)[j]
    decreases |xs|
  {
    if xs != [] {
      var init := xs[..|xs| - 1];
      FilterPositionsIncreasing(init, p);
      var pos, pi := FilterPositions(xs, p), FilterPositions(init, p);
      assert pos == pi + (if p(xs[|xs| - 1]) then [|xs| - 1] else []);
      forall i | 0 <= i < |pos| ensures pos[i] < |xs| {
        if i < |pi| {
          assert pos[i] == pi[i];
        }
      }
      forall i, j | 0 <= i < j < |pos| ensures pos[i] < pos[j] {
        assert pos[i] == pi[i];
      }
    }
  }

  lemma {:induction false} FilterPositionsComplete<T(!new)>(xs: seq<T>, p: T -> bool)
    ensures forall k :: 0 <= k < |xs| && p(xs[k]) ==> k in FilterPositions(xs, p)
    decreases |xs|
  {
    if xs != [] {
      var init := xs[..|xs| - 1];
      FilterPositionsComplete(init, p);
      var pos, pi := FilterPositions(xs, p), FilterPositions(init, p);
      assert pos == pi + (if p(xs[|xs| - 1]) then [|xs| - 1] else []);
      forall k | 0 <= k < |xs| && p(xs[k]) ensures k in pos {
        if k < |xs| - 1 {
          assert init[k] == xs[k];
          assert k in pi;
        }
      }
    }
  }


  /** Cutting at `n` after appending leaves the cut prefix alone once it is full. */
  lemma TakeAppend<T>(s: seq<T>, t: seq<T>, n: nat)
    ensures |s| < n ==> Take(s + t, n) == s + Take(t, n - |s|)
    ensures |s| >= n ==> Take(s + t, n) == Take(s, n)
  {
  }
}

