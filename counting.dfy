/**
 * Per-category tallies, as the `counts` dictionaries of both summaries build
 * them: `counts[cat] = counts.get(cat, 0) + 1` for each category in turn.
 */
module Counting {

  /** `m.get(c, 0)`. */
  function Get(m: map<string, nat>, c: string): nat
  {
    if c in m then m[c] else 0
  }

  /** One step of the tally loop. */
  function Bump(m: map<string, nat>, c: string): map<string, nat>
  {
    m[c := Get(m, c) + 1]
  }

  /** The dictionary the tally loop leaves after visiting `cats` in order. */
  function Tally(cats: seq<string>): map<string, nat>
  {
    if cats == [] then map[] else Bump(Tally(cats[..|cats| - 1]), cats[|cats| - 1])
  }

  /** The number of occurrences of `c` in `s`: the reference count. */
  function Count(s: seq<string>, c: string): nat
  {
    if s == [] then 0 else Count(s[..|s| - 1], c) + (if s[|s| - 1] == c then 1 else 0)
  }

  /** The sum of the values stored under `keys`. */
  ghost function SumOver(m: map<string, nat>, keys: set<string>): nat
    decreases keys
  {
    if keys == {} then 0 else var k :| k in keys; Get(m, k) + SumOver(m, keys - {k})
  }

  /** The sum of all values of `m`: `sum(counts.values())`. */
  ghost function Total(m: map<string, nat>): nat
  {
    SumOver(m, m.Keys)
  }

  lemma SumOverRemove(m: map<string, nat>, keys: set<string>, k: string)
    requires k in keys
    ensures SumOver(m, keys) == Get(m, k) + SumOver(m, keys - {k})
    decreases keys
  {
    var j :| j in keys && SumOver(m, keys) == Get(m, j) + SumOver(m, keys - {j});
    if j != k {
      SumOverRemove(m, keys - {j}, k);
      SumOverRemove(m, keys - {k}, j);
      assert keys - {j} - {k} == keys - {k} - {j};
    }
  }

  lemma SumOverAgree(m1: map<string, nat>, m2: map<string, nat>, keys: set<string>)
    requires forall k :: k in keys ==> Get(m1, k) == Get(m2, k)
    ensures SumOver(m1, keys) == SumOver(m2, keys)
    decreases keys
  {
    if keys != {} {
      var k :| k in keys;
      SumOverRemove(m1, keys, k);
      SumOverRemove(m2, keys, k);
      SumOverAgree(m1, m2, keys - {k});
    }
  }

  /** One step of the loop adds one to the total. */
  lemma BumpTotal(m: map<string, nat>, c: string)
    ensures Total(Bump(m, c)) == Total(m) + 1
  {
    var b := Bump(m, c);
    SumOverRemove(b, b.Keys, c);
    assert b.Keys - {c} == m.Keys - {c};
    SumOverAgree(b, m, m.Keys - {c});
    if c in m {
      SumOverRemove(m, m.Keys, c);
    } else {
      assert m.Keys - {c} == m.Keys;
    }
  }

  /** The tally holds, for every category, exactly the number of its occurrences. */
  lemma {:induction false} TallyCounts(cats: seq<string>)
    ensures forall c :: Get(Tally(cats), c) == Count(cats, c)
  {
    if cats != [] {
      TallyCounts(cats[..|cats| - 1]);
    }
  }

  /** The tally has a key for exactly the categories that occur. */
  lemma {:induction false} TallyKeys(cats: seq<string>)
    ensures forall c :: c in Tally(cats) <==> c in cats
  {
    if cats != [] {
      var init := cats[..|cats| - 1];
      TallyKeys(init);
      assert forall c :: c in cats <==> c in init || c == cats[|cats| - 1];
    }
  }

  /** The counts add up to the number of visited categories. */
  lemma {:induction false} TallyTotal(cats: seq<string>)
    ensures Total(Tally(cats)) == |cats|
  {
    if cats == [] {
      assert Tally(cats).Keys == {};
    } else {
      TallyTotal(cats[..|cats| - 1]);
      BumpTotal(Tally(cats[..|cats| - 1]), cats[|cats| - 1]);
    }
  }
}
