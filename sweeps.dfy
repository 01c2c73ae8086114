/**
 * The array idioms of the scene: `forEach` whose callback splices out the
 * element it is visiting, `splice(i, 1)` at a fixed index, and `filter`
 * by identity.
 */
module Sweeps {

  /**
   * `s.forEach((e, k) => { if (hit(e)) s.splice(k, 1); })`. forEach walks
   * indices upward, so after a removal the element that slides into the
   * vacated index is never visited. Returns the surviving array and the
   * number of removals.
   */
  function Sweep<T>(s: seq<T>, hit: T -> bool): (r: (seq<T>, nat))
    ensures |r.0| + r.1 == |s|
    ensures r.1 <= CountHits(s, hit)
  {
    if s == [] then ([], 0)
    else if hit(s[0]) then
      if |s| == 1 then ([], 1)
      else
        var t := Sweep(s[2..], hit);
        assert s[1..][1..] == s[2..];
        ([s[1]] + t.0, t.1 + 1)
    else
      var t := Sweep(s[1..], hit);
      ([s[0]] + t.0, t.1)
  }

  /**
   * The forEach loop itself: indices below the original length are visited,
   * and an index past the shrunken end is skipped (forEach checks that the
   * index is still present).
   */
  method ForEachRemoving<T>(s: seq<T>, hit: T -> bool) returns (kept: seq<T>, removed: nat)
    ensures (kept, removed) == Sweep(s, hit)
  {
    kept, removed := s, 0;
    var k := 0;
    assert kept[..0] + kept[0..] == s;
    while k < |s|
      invariant 0 <= k <= |s|
      invariant |kept| <= |s|
      invariant Sweep(s, hit).0 == kept[..Min(k, |kept|)] + Sweep(kept[Min(k, |kept|)..], hit).0
      invariant Sweep(s, hit).1 == removed + Sweep(kept[Min(k, |kept|)..], hit).1
    {
      if k < |kept| && hit(kept[k]) {
        SweepStepHit(kept, k, hit);
        kept := kept[..k] + kept[k + 1..];
        removed := removed + 1;
      } else if k < |kept| {
        SweepStepMiss(kept, k, hit);
      }
      k := k + 1;
    }
    assert Min(k, |kept|) == |kept|;
    assert kept[|kept|..] == [] && Sweep<T>([], hit) == ([], 0);
    assert kept[..|kept|] == kept;
    assert Sweep(s, hit).0 == kept;
    assert Sweep(s, hit).1 == removed;
  }

  function Min(a: int, b: int): int {
    if a < b then a else b
  }

  /** One visit of the forEach loop that splices out a hit. */
  lemma SweepStepHit<T>(kept: seq<T>, k: nat, hit: T -> bool)
    requires k < |kept| && hit(kept[k])
    ensures var next := kept[..k] + kept[k + 1..];
      var j := Min(k + 1, |next|);
      kept[..k] + Sweep(kept[k..], hit).0 == next[..j] + Sweep(next[j..], hit).0 &&
      Sweep(kept[k..], hit).1 == 1 + Sweep(next[j..], hit).1
  {
    var tail := kept[k..];
    var next := kept[..k] + kept[k + 1..];
    if |tail| >= 2 {
      assert next[..k + 1] == kept[..k] + [tail[1]];
      assert next[k + 1..] == tail[2..];
    } else {
      assert next == kept[..k];
      assert next[k..] == [];
    }
  }

  /** One visit of the forEach loop that keeps a miss. */
  lemma SweepStepMiss<T>(kept: seq<T>, k: nat, hit: T -> bool)
    requires k < |kept| && !hit(kept[k])
    ensures kept[..k] + Sweep(kept[k..], hit).0 == kept[..k + 1] + Sweep(kept[k + 1..], hit).0
    ensures Sweep(kept[k..], hit).1 == Sweep(kept[k + 1..], hit).1
  {
    assert kept[k..][1..] == kept[k + 1..];
    assert kept[..k + 1] == kept[..k] + [kept[k]];
  }

  /** Everything `Sweep` removes satisfies `hit`. */
  lemma {:induction false} SweepRemovesOnlyHits<T>(s: seq<T>, hit: T -> bool, x: T)
    requires multiset(Sweep(s, hit).0)[x] < multiset(s)[x]
    ensures hit(x)
    decreases |s|
  {
    if s == [] {
    } else if hit(s[0]) {
      if |s| > 1 {
        assert s == [s[0], s[1]] + s[2..];
        if x != s[0] {
          SweepRemovesOnlyHits(s[2..], hit, x);
        }
      }
    } else {
      assert s == [s[0]] + s[1..];
      SweepRemovesOnlyHits(s[1..], hit, x);
    }
  }

  /** `Sweep` never removes an element that misses, and adds nothing. */
  lemma {:induction false} SweepKeepsMisses<T>(s: seq<T>, hit: T -> bool, x: T)
    ensures multiset(Sweep(s, hit).0)[x] <= multiset(s)[x]
    ensures !hit(x) ==> multiset(Sweep(s, hit).0)[x] == multiset(s)[x]
    decreases |s|
  {
    if s == [] {
    } else if hit(s[0]) {
      if |s| > 1 {
        assert s == [s[0], s[1]] + s[2..];
        SweepKeepsMisses(s[2..], hit, x);
      }
    } else {
      assert s == [s[0]] + s[1..];
      SweepKeepsMisses(s[1..], hit, x);
    }
  }

  /** Indices of `s` holding an element that satisfies `hit`. */
  function CountHits<T>(s: seq<T>, hit: T -> bool): (n: nat)
    ensures n <= |s|
  {
    if s == [] then 0 else (if hit(s[0]) then 1 else 0) + CountHits(s[1..], hit)
  }

  /** No two neighbouring elements both satisfy `hit`. */
  predicate Separated<T>(s: seq<T>, hit: T -> bool) {
    forall i :: 0 <= i < |s| - 1 ==> !(hit(s[i]) && hit(s[i + 1]))
  }

  /**
   * When no two hits are neighbours, the skipped element is never a hit,
   * so `Sweep` removes every hit and keeps every miss.
   */
  lemma {:induction false} SweepSeparated<T>(s: seq<T>, hit: T -> bool)
    requires Separated(s, hit)
    ensures Sweep(s, hit).1 == CountHits(s, hit)
    ensures forall i :: 0 <= i < |Sweep(s, hit).0| ==> !hit(Sweep(s, hit).0[i])
    decreases |s|
  {
    if s == [] {
    } else if hit(s[0]) {
      if |s| > 1 {
        assert !hit(s[1]);
        assert Separated(s[2..], hit) by {
          forall i | 0 <= i < |s[2..]| - 1 ensures !(hit(s[2..][i]) && hit(s[2..][i + 1])) {
            assert s[2..][i] == s[i + 2] && s[2..][i + 1] == s[i + 3];
          }
        }
        SweepSeparated(s[2..], hit);
        assert s[1..][1..] == s[2..];
      }
    } else {
      assert Separated(s[1..], hit) by {
        forall i | 0 <= i < |s[1..]| - 1 ensures !(hit(s[1..][i]) && hit(s[1..][i + 1])) {
          assert s[1..][i] == s[i + 1] && s[1..][i + 1] == s[i + 2];
        }
      }
      SweepSeparated(s[1..], hit);
    }
  }

  /** Two neighbouring hits: the second one survives the sweep. */
  lemma {:induction false} SweepSkipsNeighbour<T>(s: seq<T>, hit: T -> bool, i: nat)
    requires i + 1 < |s| && hit(s[i]) && hit(s[i + 1])
    requires forall j :: 0 <= j < i ==> !hit(s[j])
    ensures s[i + 1] in Sweep(s, hit).0
    decreases i
  {
    if i > 0 {
      SweepSkipsNeighbour(s[1..], hit, i - 1);
    }
  }

  /** `s.splice(i, 1)` executed `c` times; a splice past the end does nothing. */
  function RemoveAt<T>(s: seq<T>, i: nat, c: nat): (r: seq<T>)
    requires i <= |s|
    ensures |r| == |s| - (if i + c <= |s| then c else |s| - i)
    ensures r[..i] == s[..i]
    ensures r[i..] == s[(if i + c <= |s| then i + c else |s|)..]
  {
    s[..i] + s[(if i + c <= |s| then i + c else |s|)..]
  }

  /** `s.filter(e => e !== x)`. */
  function Without<T(==)>(s: seq<T>, x: T): (r: seq<T>)
    ensures x !in r
    ensures |r| == |s| - multiset(s)[x]
    ensures multiset(r) == multiset(s)[x := 0]
  {
    if s == [] then []
    else
      assert s == [s[0]] + s[1..];
      if s[0] == x then Without(s[1..], x) else [s[0]] + Without(s[1..], x)
  }

  /** No element occurs twice (each mesh is in the array at most once). */
  ghost predicate Distinct<T(!new)>(s: seq<T>) {
    forall x :: multiset(s)[x] <= 1
  }

  /** Sweeping a duplicate-free array leaves it duplicate-free. */
  lemma SweepKeepsDistinct<T(!new)>(s: seq<T>, hit: T -> bool)
    requires Distinct(s)
    ensures Distinct(Sweep(s, hit).0)
  {
    forall x ensures multiset(Sweep(s, hit).0)[x] <= 1 {
      SweepKeepsMisses(s, hit, x);
    }
  }

  /** Everything `Sweep` keeps was in the array. */
  lemma SweepKeepsOnlyElements<T>(s: seq<T>, hit: T -> bool)
    ensures forall x :: x in Sweep(s, hit).0 ==> x in s
  {
    forall x | x in Sweep(s, hit).0 ensures x in s {
      SweepKeepsMisses(s, hit, x);
    }
  }

  /** Everything `Without` keeps was in the array. */
  lemma WithoutKeepsOnlyElements<T>(s: seq<T>, x: T)
    ensures forall y :: y in Without(s, x) ==> y in s
  {
    forall y | y in Without(s, x) ensures y in s {
      assert multiset(Without(s, x))[y] > 0;
    }
  }

  /** In a duplicate-free array, `Without` removes exactly one occurrence of a member. */
  lemma WithoutRemovesOne<T(!new)>(s: seq<T>, x: T)
    requires Distinct(s) && x in s
    ensures |Without(s, x)| == |s| - 1
  {
    assert x in multiset(s);
    assert multiset(s)[x] <= 1;
  }
}
