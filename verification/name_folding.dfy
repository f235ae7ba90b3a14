/**
 Case folding of JSON names, as both duplicate-name validators do it
 (internal/platform/rotation_credentials.go, internal/platform/personal_membership.go).

 `fold` stands for unicode.SimpleFold; all that is assumed of it is that it permutes the code points.
 */
module NameFolding {

  const RUNES: nat := 0x11_0000

  type Rune = r: nat | r < RUNES
  type Name = seq<Rune>

  ghost predicate Permutation(fold: Rune -> Rune) {
    forall a: Rune, b: Rune {:trigger fold(a), fold(b)} :: fold(a) == fold(b) ==> a == b
  }

  function Iterate(fold: Rune -> Rune, r: Rune, k: nat): Rune { if k == 0 then r else fold(Iterate(fold, r, k - 1)) }

  /** The second rune is reached from the first by folding. */
  ghost predicate SameFold(fold: Rune -> Rune, a: Rune, b: Rune) { exists k: nat :: Iterate(fold, a, k) == b }

  // ----- orbits

  lemma {:induction false} IterateAdds(fold: Rune -> Rune, r: Rune, j: nat, k: nat)
    ensures Iterate(fold, Iterate(fold, r, j), k) == Iterate(fold, r, j + k)
  {
    if k > 0 { IterateAdds(fold, r, j, k - 1); }
  }

  lemma {:induction false} IterateCycles(fold: Rune -> Rune, r: Rune, n: nat, k: nat)
    requires Iterate(fold, r, n) == r
    ensures Iterate(fold, r, n * k) == r
  {
    if k > 0 {
      IterateCycles(fold, r, n, k - 1);
      IterateAdds(fold, r, n * (k - 1), n);
      assert n * (k - 1) + n == n * k;
    }
  }

  /** The distinct runes passed on the way from `r`, in order. */
  ghost predicate Trail(fold: Rune -> Rune, r: Rune, trail: seq<Rune>) {
    && trail != [] && trail[0] == r
    && (forall i :: 0 <= i < |trail| - 1 ==> trail[i + 1] == fold(trail[i]))
    && (forall i, j :: 0 <= i < j < |trail| ==> trail[i] != trail[j])
  }

  /** Folding on either returns to the start or reaches a new rune: it never closes a cycle elsewhere. */
  lemma TrailGrows(fold: Rune -> Rune, r: Rune, trail: seq<Rune>)
    requires Permutation(fold) && Trail(fold, r, trail) && fold(trail[|trail| - 1]) != r
    ensures Trail(fold, r, trail + [fold(trail[|trail| - 1])])
  {
    var last := |trail| - 1;
    forall j | 0 <= j < |trail| ensures trail[j] != fold(trail[last]) {
      if j > 0 { assert trail[j] == fold(trail[j - 1]) && trail[j - 1] != trail[last]; }
    }
  }

  lemma {:induction false} BoundedSet(s: set<Rune>, n: nat)
    requires forall x :: x in s ==> x < n
    ensures |s| <= n
  {
    if n == 0 {
      assert s == {};
    } else if n - 1 < RUNES {
      BoundedSet(s - {n - 1}, n - 1);
    } else {
      BoundedSet(s, n - 1);
    }
  }

  function Elements(s: seq<Rune>): set<Rune> { set x | x in s }

  /** A trail ends: there are only so many runes. */
  lemma TrailBounded(fold: Rune -> Rune, r: Rune, trail: seq<Rune>)
    requires Trail(fold, r, trail)
    ensures |trail| <= RUNES
  {
    assert forall x :: x in Elements(trail) ==> x < RUNES;
    DistinctSize(trail);
    BoundedSet(Elements(trail), RUNES);
  }

  lemma {:induction false} DistinctSize(s: seq<Rune>)
    requires forall i, j :: 0 <= i < j < |s| ==> s[i] != s[j]
    ensures |Elements(s)| == |s|
  {
    if s != [] {
      var rest, last := s[..|s| - 1], s[|s| - 1];
      DistinctSize(rest);
      assert s == rest + [last];
      assert Elements(s) == Elements(rest) + {last} && last !in Elements(rest);
    }
  }

  lemma {:induction false} TrailIterates(fold: Rune -> Rune, r: Rune, trail: seq<Rune>, k: nat)
    requires Trail(fold, r, trail) && k < |trail|
    ensures Iterate(fold, r, k) == trail[k]
  {
    if k > 0 { TrailIterates(fold, r, trail, k - 1); }
  }

  lemma Reduced(fold: Rune -> Rune, r: Rune, n: nat, k: nat)
    requires n > 0 && Iterate(fold, r, n) == r
    ensures Iterate(fold, r, k % n) == Iterate(fold, r, k)
  {
    IterateCycles(fold, r, n, k / n);
    IterateAdds(fold, r, n * (k / n), k % n);
  }

  /** A trail whose end folds back to the start is the whole orbit. */
  lemma ClosedTrail(fold: Rune -> Rune, r: Rune, trail: seq<Rune>)
    requires Trail(fold, r, trail) && fold(trail[|trail| - 1]) == r
    ensures Iterate(fold, r, |trail|) == r
    ensures forall x :: SameFold(fold, r, x) <==> x in trail
  {
    TrailIterates(fold, r, trail, |trail| - 1);
    forall x ensures SameFold(fold, r, x) <==> x in trail {
      if SameFold(fold, r, x) {
        var k: nat :| Iterate(fold, r, k) == x;
        Reduced(fold, r, |trail|, k);
        TrailIterates(fold, r, trail, k % |trail|);
      } else if x in trail {
        var k: nat :| k < |trail| && trail[k] == x;
        TrailIterates(fold, r, trail, k);
      }
    }
  }

  /** The fold loop: walks the orbit once around and keeps the least rune of it. */
  method Lowest(fold: Rune -> Rune, r: Rune) returns (lowest: Rune)
    requires Permutation(fold)
    ensures IsLowest(fold, r, lowest)
  {
    lowest := r;
    var next := fold(r);
    ghost var trail: seq<Rune> := [r];
    while next != r
      invariant Trail(fold, r, trail) && next == fold(trail[|trail| - 1])
      invariant lowest in trail && forall x :: x in trail ==> lowest <= x
      decreases RUNES - |trail|
    {
      TrailGrows(fold, r, trail);
      trail := trail + [next];
      TrailBounded(fold, r, trail);
      if next < lowest { lowest := next; }
      next := fold(next);
    }
    ClosedTrail(fold, r, trail);
  }

  lemma Orbit(fold: Rune -> Rune, r: Rune) returns (trail: seq<Rune>)
    requires Permutation(fold)
    ensures Trail(fold, r, trail) && fold(trail[|trail| - 1]) == r
  {
    trail := [r];
    while fold(trail[|trail| - 1]) != r
      invariant Trail(fold, r, trail)
      decreases RUNES - |trail|
    {
      TrailGrows(fold, r, trail);
      trail := trail + [fold(trail[|trail| - 1])];
      TrailBounded(fold, r, trail);
    }
  }

  lemma SameFoldIsSymmetric(fold: Rune -> Rune, a: Rune, b: Rune)
    requires Permutation(fold) && SameFold(fold, a, b)
    ensures SameFold(fold, b, a)
  {
    var trail := Orbit(fold, a);
    ClosedTrail(fold, a, trail);
    var n := |trail|;
    var k: nat :| Iterate(fold, a, k) == b;
    IterateCycles(fold, a, n, k);
    assert n * k - k == (n - 1) * k;
    var back: nat := (n - 1) * k;
    IterateAdds(fold, a, k, back);
  }

  lemma SameFoldChains(fold: Rune -> Rune, a: Rune, b: Rune, c: Rune)
    requires SameFold(fold, a, b) && SameFold(fold, b, c)
    ensures SameFold(fold, a, c)
  {
    var j: nat :| Iterate(fold, a, j) == b;
    var k: nat :| Iterate(fold, b, k) == c;
    IterateAdds(fold, a, j, k);
  }

  // ----- keys

  ghost predicate IsLowest(fold: Rune -> Rune, r: Rune, lowest: Rune) {
    SameFold(fold, r, lowest) && forall x :: SameFold(fold, r, x) ==> lowest <= x
  }

  /** Rune by rune, the key holds the least rune of each orbit. */
  ghost predicate IsKey(fold: Rune -> Rune, name: Name, key: Name) {
    |key| == |name| && forall i :: 0 <= i < |name| ==> IsLowest(fold, name[i], key[i])
  }

  /** Two names that the typed decoder could take for one field. */
  ghost predicate Alike(fold: Rune -> Rune, a: Name, b: Name) {
    |a| == |b| && forall i :: 0 <= i < |a| ==> SameFold(fold, a[i], b[i])
  }

  method Key(fold: Rune -> Rune, name: Name) returns (key: Name)
    requires Permutation(fold)
    ensures IsKey(fold, name, key)
  {
    key := [];
    for i := 0 to |name|
      invariant |key| == i && forall j :: 0 <= j < i ==> IsLowest(fold, name[j], key[j])
    {
      var lowest := Lowest(fold, name[i]);
      key := key + [lowest];
    }
  }

  lemma SameLowest(fold: Rune -> Rune, a: Rune, b: Rune, x: Rune, y: Rune)
    requires Permutation(fold) && IsLowest(fold, a, x) && IsLowest(fold, b, y)
    ensures x == y <==> SameFold(fold, a, b)
  {
    if x == y {
      SameFoldIsSymmetric(fold, b, x);
      SameFoldChains(fold, a, x, b);
    } else if SameFold(fold, a, b) {
      SameFoldIsSymmetric(fold, a, b);
      SameFoldChains(fold, a, b, y);
      SameFoldChains(fold, b, a, x);
    }
  }

  /** Two names get the same key exactly when they match rune by rune up to folding. */
  lemma SameKeyIffAlike(fold: Rune -> Rune, a: Name, b: Name, key: Name, key': Name)
    requires Permutation(fold) && IsKey(fold, a, key) && IsKey(fold, b, key')
    ensures key == key' <==> Alike(fold, a, b)
  {
    forall i | 0 <= i < |a| && |a| == |b| ensures key[i] == key'[i] <==> SameFold(fold, a[i], b[i]) {
      SameLowest(fold, a[i], b[i], key[i], key'[i]);
    }
    if |a| == |b| && Alike(fold, a, b) { assert key == key'; }
  }

  lemma KeyExists(fold: Rune -> Rune, name: Name) returns (key: Name)
    requires Permutation(fold)
    ensures IsKey(fold, name, key)
  {
    key := [];
    while |key| < |name|
      invariant |key| <= |name| && forall j :: 0 <= j < |key| ==> IsLowest(fold, name[j], key[j])
    {
      assert Iterate(fold, name[|key|], 0) == name[|key|];
      var x := LowestExists(fold, name[|key|], name[|key|]);
      key := key + [x];
    }
  }

  lemma {:induction false} LowestExists(fold: Rune -> Rune, r: Rune, x: Rune) returns (lowest: Rune)
    requires Permutation(fold) && SameFold(fold, r, x)
    ensures IsLowest(fold, r, lowest)
    decreases x
  {
    if y: Rune :| SameFold(fold, r, y) && y < x {
      lowest := LowestExists(fold, r, y);
    } else {
      lowest := x;
    }
  }

  /** The key of a name. */
  ghost function KeyOf(fold: Rune -> Rune, name: Name): (key: Name)
    requires Permutation(fold)
    ensures IsKey(fold, name, key)
  {
    assert exists key :: IsKey(fold, name, key) by { var key := KeyExists(fold, name); }
    var key :| IsKey(fold, name, key);
    key
  }
}
