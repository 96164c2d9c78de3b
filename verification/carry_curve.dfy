/**
 * The scratch-carry interpolator: looks a speed up in a club's speed-to-carry
 * curve, and interpolates linearly (then rounds) between the two tabulated speeds
 * that bracket it. There is no extrapolation.
 */
module CarryCurve {
  import opened Wrappers
  import opened JsMath
  import opened ReferenceData

  /** True when some entry of `t` is tabulated at speed `k`. */
  predicate HasSpeed(t: CarryTable, k: real) {
    exists e :: e in t && e.0 == k
  }

  /** No speed is tabulated twice (true of every table read from a data document). */
  ghost predicate DistinctSpeeds(t: CarryTable) {
    forall i, j :: 0 <= i < |t| && 0 <= j < |t| && t[i].0 == t[j].0 ==> i == j
  }

  /** Speeds never decrease along `t`. */
  ghost predicate SortedBySpeed(t: CarryTable) {
    forall i, j :: 0 <= i < j < |t| ==> t[i].0 <= t[j].0
  }

  /** Speeds strictly increase along `t`. */
  ghost predicate StrictlyIncreasing(t: CarryTable) {
    forall i, j :: 0 <= i < j < |t| ==> t[i].0 < t[j].0
  }

  /** The carry stored under speed `k` (the property read `carryMap[k]`). */
  function Lookup(t: CarryTable, k: real): (r: Option<real>)
    ensures r.Some? <==> HasSpeed(t, k)
    ensures r.Some? ==> (k, r.value) in t
  {
    if |t| == 0 then None
    else if t[0].0 == k then Some(t[0].1)
    else
      assert forall e :: e in t ==> e == t[0] || e in t[1..];
      Lookup(t[1..], k)
  }

  /** Inserts `x` into `s` before the first entry whose speed is not below its own. */
  function InsertBySpeed(x: (real, real), s: CarryTable): (r: CarryTable)
    ensures multiset(r) == multiset(s) + multiset{x}
    ensures SortedBySpeed(s) ==> SortedBySpeed(r)
    ensures StrictlyIncreasing(s) && !HasSpeed(s, x.0) ==> StrictlyIncreasing(r)
  {
    if |s| == 0 then [x]
    else if x.0 <= s[0].0 then
      InsertAtFront(x, s);
      [x] + s
    else
      var rest := InsertBySpeed(x, s[1..]);
      InsertBehindHead(x, s, rest);
      [s[0]] + rest
  }

  /** Putting `x` first keeps the order when its speed is not above the first speed. */
  lemma InsertAtFront(x: (real, real), s: CarryTable)
    requires |s| > 0 && x.0 <= s[0].0
    ensures SortedBySpeed(s) ==> SortedBySpeed([x] + s)
    ensures StrictlyIncreasing(s) && !HasSpeed(s, x.0) ==> StrictlyIncreasing([x] + s)
  {
    if StrictlyIncreasing(s) && !HasSpeed(s, x.0) {
      assert s[0] in s;
    }
  }

  /** Keeping the head and inserting into the tail keeps the order. */
  lemma InsertBehindHead(x: (real, real), s: CarryTable, rest: CarryTable)
    requires |s| > 0 && s[0].0 < x.0
    requires multiset(rest) == multiset(s[1..]) + multiset{x}
    requires SortedBySpeed(s[1..]) ==> SortedBySpeed(rest)
    requires StrictlyIncreasing(s[1..]) && !HasSpeed(s[1..], x.0) ==> StrictlyIncreasing(rest)
    ensures multiset([s[0]] + rest) == multiset(s) + multiset{x}
    ensures SortedBySpeed(s) ==> SortedBySpeed([s[0]] + rest)
    ensures StrictlyIncreasing(s) && !HasSpeed(s, x.0) ==> StrictlyIncreasing([s[0]] + rest)
  {
    assert s == [s[0]] + s[1..];
    forall e | e in rest
      ensures e == x || e in s[1..]
    {
      assert e in multiset(rest);
    }
    if SortedBySpeed(s) {
      forall e | e in rest
        ensures s[0].0 <= e.0
      {
        if e != x {
          var j :| 0 <= j < |s[1..]| && s[1..][j] == e;
          assert s[j + 1] == e;
        }
      }
      ConsOrdered(s[0], rest);
    }
    if StrictlyIncreasing(s) && !HasSpeed(s, x.0) {
      forall e | e in rest
        ensures s[0].0 < e.0
      {
        if e != x {
          var j :| 0 <= j < |s[1..]| && s[1..][j] == e;
          assert s[j + 1] == e;
        }
      }
      forall e | e in s[1..]
        ensures e.0 != x.0
      {
        assert e in s;
      }
      ConsStrict(s[0], rest);
    }
  }

  /** A head no faster than every later entry extends a sorted table. */
  lemma ConsOrdered(h: (real, real), rest: CarryTable)
    requires SortedBySpeed(rest)
    requires forall e :: e in rest ==> h.0 <= e.0
    ensures SortedBySpeed([h] + rest)
  {
    forall i, j | 0 <= i < j < |[h] + rest|
      ensures ([h] + rest)[i].0 <= ([h] + rest)[j].0
    {
      if i == 0 {
        assert ([h] + rest)[j] == rest[j - 1];
        assert rest[j - 1] in rest;
      }
    }
  }

  /** A head slower than every later entry extends a strictly increasing table. */
  lemma ConsStrict(h: (real, real), rest: CarryTable)
    requires StrictlyIncreasing(rest)
    requires forall e :: e in rest ==> h.0 < e.0
    ensures StrictlyIncreasing([h] + rest)
  {
    forall i, j | 0 <= i < j < |[h] + rest|
      ensures ([h] + rest)[i].0 < ([h] + rest)[j].0
    {
      if i == 0 {
        assert ([h] + rest)[j] == rest[j - 1];
        assert rest[j - 1] in rest;
      }
    }
  }

  /** The table ordered by ascending speed (the numeric sort of the keys). */
  function SortBySpeed(t: CarryTable): (r: CarryTable)
    ensures multiset(r) == multiset(t)
    ensures SortedBySpeed(r)
    ensures DistinctSpeeds(t) ==> StrictlyIncreasing(r)
  {
    if |t| == 0 then []
    else
      var tail := SortBySpeed(t[1..]);
      assert t == [t[0]] + t[1..];
      assert DistinctSpeeds(t) ==> DistinctSpeeds(t[1..]) && !HasSpeed(tail, t[0].0) by {
        if DistinctSpeeds(t) {
          forall i, j | 0 <= i < |t[1..]| && 0 <= j < |t[1..]| && t[1..][i].0 == t[1..][j].0
            ensures i == j
          {
            assert t[i + 1].0 == t[j + 1].0;
          }
          forall e | e in tail
            ensures e.0 != t[0].0
          {
            assert e in multiset(t[1..]);
            var j :| 0 <= j < |t[1..]| && t[1..][j] == e;
            assert t[j + 1] == e;
          }
        }
      }
      InsertBySpeed(t[0], tail)
  }

  /** The carry on the straight line through `lower` and `upper`, at speed `s`. */
  function Interpolate(lower: (real, real), upper: (real, real), s: real): (r: real)
    requires lower.0 < upper.0
    ensures (r - lower.1) * (upper.0 - lower.0) == (upper.1 - lower.1) * (s - lower.0)
    ensures s == lower.0 ==> r == lower.1
    ensures s == upper.0 ==> r == upper.1
    ensures lower.0 <= s <= upper.0 ==> Min(lower.1, upper.1) <= r <= Max(lower.1, upper.1)
  {
    var t := (s - lower.0) / (upper.0 - lower.0);
    assert (upper.1 - lower.1) * (s - lower.0) / (upper.0 - lower.0) == (upper.1 - lower.1) * t;
    UnitFraction(s - lower.0, upper.0 - lower.0);
    BlendBetween(lower.1, upper.1, t);
    lower.1 + ((upper.1 - lower.1) * (s - lower.0) / (upper.0 - lower.0))
  }

  /**
   * The interpolation loop over the sorted entries: the first adjacent pair that
   * strictly brackets `s` gives the rounded interpolated carry; no pair gives None.
   */
  function FirstBracket(sorted: CarryTable, s: real): (r: Option<real>)
    ensures r.Some? ==> IsWhole(r.value)
  {
    if |sorted| < 2 then None
    else if sorted[0].0 < s < sorted[1].0 then Some(Round(Interpolate(sorted[0], sorted[1], s)))
    else FirstBracket(sorted[1..], s)
  }

  /**
   * `getScratchCarry`: the scratch carry of `club` at speed `speed`, or None when the
   * club is unknown or the speed can be neither found nor bracketed.
   */
  function ScratchCarry(clubs: map<string, ClubProfile>, club: string, speed: real): (r: Option<real>)
    ensures club !in clubs ==> r == None
  {
    if club !in clubs then None
    else
      var table := clubs[club].carry;
      var speeds := SortBySpeed(table);
      var exact := Lookup(table, speed);
      // The exact-key branch tests truthiness: a tabulated carry of 0 falls through.
      if exact.Some? && exact.value != 0.0 then exact
      else FirstBracket(speeds, speed)
  }

  /** Some entry of `t` lies strictly below `s` and some strictly above it. */
  predicate Straddles(t: CarryTable, s: real) {
    (exists a :: a in t && a.0 < s) && (exists b :: b in t && s < b.0)
  }

  /** With distinct speeds, the entry tabulated at `k` is the one Lookup returns. */
  lemma LookupFindsEntry(t: CarryTable, k: real, v: real)
    requires DistinctSpeeds(t)
    requires (k, v) in t
    ensures Lookup(t, k) == Some(v)
  {
  }

  /** When the loop returns a carry, it comes from an adjacent pair strictly bracketing `s`. */
  lemma {:induction false} FirstBracketFound(sorted: CarryTable, s: real) returns (i: nat)
    requires FirstBracket(sorted, s).Some?
    ensures i + 1 < |sorted| && sorted[i].0 < s < sorted[i + 1].0
    ensures FirstBracket(sorted, s) == Some(Round(Interpolate(sorted[i], sorted[i + 1], s)))
  {
    if sorted[0].0 < s < sorted[1].0 {
      i := 0;
    } else {
      var k := FirstBracketFound(sorted[1..], s);
      i := k + 1;
    }
  }

  /** On strictly increasing speeds, a speed strictly inside an adjacent pair is not tabulated. */
  lemma AdjacentPairExcludesSpeed(sorted: CarryTable, i: nat, s: real)
    requires StrictlyIncreasing(sorted)
    requires i + 1 < |sorted| && sorted[i].0 < s < sorted[i + 1].0
    ensures !HasSpeed(sorted, s) && Straddles(sorted, s)
  {
    assert sorted[i] in sorted && sorted[i + 1] in sorted;
    forall e | e in sorted
      ensures e.0 != s
    {
      var k :| 0 <= k < |sorted| && sorted[k] == e;
      if k <= i {
        assert sorted[k].0 <= sorted[i].0;
      } else {
        assert sorted[i + 1].0 <= sorted[k].0;
      }
    }
  }

  /** On strictly increasing speeds, an untabulated speed with entries on both sides is found. */
  lemma {:induction false} FirstBracketComplete(sorted: CarryTable, s: real)
    requires StrictlyIncreasing(sorted)
    requires !HasSpeed(sorted, s) && Straddles(sorted, s)
    ensures FirstBracket(sorted, s).Some?
  {
    var a :| a in sorted && a.0 < s;
    var b :| b in sorted && s < b.0;
    var ia :| 0 <= ia < |sorted| && sorted[ia] == a;
    var ib :| 0 <= ib < |sorted| && sorted[ib] == b;
    assert ia < ib;
    assert sorted[0].0 <= a.0 < s;
    if !(s < sorted[1].0) {
      var tail := sorted[1..];
      assert sorted[1] in sorted;
      assert tail[0].0 < s;
      assert ib > 1 && tail[ib - 1] == b;
      assert Straddles(tail, s) by {
        assert tail[0] in tail && b in tail;
      }
      forall e | e in tail
        ensures e.0 != s
      {
        assert e in sorted;
      }
      FirstBracketComplete(tail, s);
    }
  }

  /** On strictly increasing speeds, the loop finds a pair exactly when `s` is bracketed but not tabulated. */
  lemma FirstBracketSomeIff(sorted: CarryTable, s: real)
    requires StrictlyIncreasing(sorted)
    ensures FirstBracket(sorted, s).Some? <==> !HasSpeed(sorted, s) && Straddles(sorted, s)
  {
    if FirstBracket(sorted, s).Some? {
      var i := FirstBracketFound(sorted, s);
      AdjacentPairExcludesSpeed(sorted, i, s);
    }
    if !HasSpeed(sorted, s) && Straddles(sorted, s) {
      FirstBracketComplete(sorted, s);
    }
  }

  /** On strictly increasing speeds, an adjacent pair bracketing `s` yields its interpolation. */
  lemma {:induction false} FirstBracketAt(sorted: CarryTable, i: nat, s: real)
    requires StrictlyIncreasing(sorted)
    requires i + 1 < |sorted|
    requires sorted[i].0 < s < sorted[i + 1].0
    ensures FirstBracket(sorted, s) == Some(Round(Interpolate(sorted[i], sorted[i + 1], s)))
  {
    if i > 0 {
      assert sorted[1].0 <= sorted[i].0;
      FirstBracketAt(sorted[1..], i - 1, s);
    }
  }

  /** Some entry is tabulated at `k` with a carry other than 0 (a truthy `carryMap[k]`). */
  predicate NonZeroAt(t: CarryTable, k: real) {
    exists e :: e in t && e.0 == k && e.1 != 0.0
  }

  /** Sorting keeps exactly the entries of the table. */
  lemma SortKeepsEntries(t: CarryTable)
    ensures forall e :: e in SortBySpeed(t) <==> e in t
  {
    var sorted := SortBySpeed(t);
    forall e
      ensures e in sorted <==> e in t
    {
      assert e in multiset(sorted) <==> e in multiset(t);
    }
  }

  /** An exact key with a non-zero carry gives that carry, unrounded. */
  lemma ScratchCarryExact(clubs: map<string, ClubProfile>, club: string, speed: real, carry: real)
    requires club in clubs && DistinctSpeeds(clubs[club].carry)
    requires (speed, carry) in clubs[club].carry && carry != 0.0
    ensures ScratchCarry(clubs, club, speed) == Some(carry)
  {
    LookupFindsEntry(clubs[club].carry, speed, carry);
  }

  /**
   * A speed strictly between two neighbouring tabulated speeds gives the rounded
   * linear interpolation, which lies between the rounded neighbouring carries.
   */
  lemma ScratchCarryBetween(clubs: map<string, ClubProfile>, club: string, lower: (real, real), upper: (real, real), speed: real)
    requires club in clubs && DistinctSpeeds(clubs[club].carry)
    requires lower in clubs[club].carry && upper in clubs[club].carry
    requires lower.0 < speed < upper.0
    requires forall e :: e in clubs[club].carry ==> !(lower.0 < e.0 < upper.0)
    ensures ScratchCarry(clubs, club, speed) == Some(Round(Interpolate(lower, upper, speed)))
    ensures Round(Min(lower.1, upper.1)) <= ScratchCarry(clubs, club, speed).value <= Round(Max(lower.1, upper.1))
  {
    var t := clubs[club].carry;
    var sorted := SortBySpeed(t);
    SortKeepsEntries(t);
    assert !HasSpeed(t, speed) by {
      forall e | e in t
        ensures e.0 != speed
      {
        assert !(lower.0 < e.0 < upper.0);
      }
    }
    assert Lookup(t, speed) == None;
    FirstBracketBetween(sorted, lower, upper, speed);
    assert ScratchCarry(clubs, club, speed) == FirstBracket(sorted, speed);
    RoundedInterpolationBetween(lower, upper, speed);
  }

  /** On strictly increasing speeds, two neighbouring entries around `s` give its interpolation. */
  lemma FirstBracketBetween(sorted: CarryTable, lower: (real, real), upper: (real, real), s: real)
    requires StrictlyIncreasing(sorted)
    requires lower in sorted && upper in sorted
    requires lower.0 < s < upper.0
    requires forall e :: e in sorted ==> !(lower.0 < e.0 < upper.0)
    ensures FirstBracket(sorted, s) == Some(Round(Interpolate(lower, upper, s)))
  {
    var i :| 0 <= i < |sorted| && sorted[i] == lower;
    var j :| 0 <= j < |sorted| && sorted[j] == upper;
    NeighboursAreAdjacent(sorted, i, j);
    FirstBracketAt(sorted, i, s);
  }

  /** Rounding an interpolated carry keeps it between the rounded end carries. */
  lemma RoundedInterpolationBetween(lower: (real, real), upper: (real, real), speed: real)
    requires lower.0 <= speed <= upper.0 && lower.0 < upper.0
    ensures Round(Min(lower.1, upper.1)) <= Round(Interpolate(lower, upper, speed)) <= Round(Max(lower.1, upper.1))
  {
    var v := Interpolate(lower, upper, speed);
    RoundMonotone(Min(lower.1, upper.1), v);
    RoundMonotone(v, Max(lower.1, upper.1));
  }

  /** Two entries of a strictly increasing table with no speed strictly between them are adjacent. */
  lemma NeighboursAreAdjacent(sorted: CarryTable, i: nat, j: nat)
    requires StrictlyIncreasing(sorted)
    requires i < |sorted| && j < |sorted| && sorted[i].0 < sorted[j].0
    requires forall e :: e in sorted ==> !(sorted[i].0 < e.0 < sorted[j].0)
    ensures j == i + 1
  {
    assert i < j;
    assert sorted[i + 1] in sorted;
    assert sorted[j].0 <= sorted[i + 1].0;
  }

  /**
   * With a known club, a carry is available exactly when the speed is a key with a
   * non-zero carry, or is no key at all and has tabulated speeds on both sides.
   */
  lemma ScratchCarryAvailable(clubs: map<string, ClubProfile>, club: string, speed: real)
    requires club in clubs && DistinctSpeeds(clubs[club].carry)
    ensures ScratchCarry(clubs, club, speed).Some?
        <==> NonZeroAt(clubs[club].carry, speed)
             || (!HasSpeed(clubs[club].carry, speed) && Straddles(clubs[club].carry, speed))
  {
    var t := clubs[club].carry;
    var sorted := SortBySpeed(t);
    SortKeepsEntries(t);
    FirstBracketSomeIff(sorted, speed);
    assert HasSpeed(sorted, speed) == HasSpeed(t, speed);
    assert Straddles(sorted, speed) == Straddles(t, speed);
    if NonZeroAt(t, speed) {
      var e :| e in t && e.0 == speed && e.1 != 0.0;
      LookupFindsEntry(t, speed, e.1);
    } else {
      var exact := Lookup(t, speed);
      if exact.Some? {
        assert (speed, exact.value) in t;
        assert exact.value == 0.0;
      }
    }
  }

  /** Below the smallest or above the largest tabulated speed there is no carry. */
  lemma NoExtrapolation(clubs: map<string, ClubProfile>, club: string, speed: real)
    requires club in clubs && DistinctSpeeds(clubs[club].carry)
    requires (forall e :: e in clubs[club].carry ==> speed < e.0)
          || (forall e :: e in clubs[club].carry ==> e.0 < speed)
    ensures ScratchCarry(clubs, club, speed) == None
  {
    ScratchCarryAvailable(clubs, club, speed);
  }

  /** A curve of fewer than two points gives a carry only through an exact non-zero key. */
  lemma TooFewPoints(clubs: map<string, ClubProfile>, club: string, speed: real)
    requires club in clubs && |clubs[club].carry| < 2
    requires !NonZeroAt(clubs[club].carry, speed)
    ensures ScratchCarry(clubs, club, speed) == None
  {
    var t := clubs[club].carry;
    ScratchCarryAvailable(clubs, club, speed);
    if |t| == 1 {
      forall e | e in t
        ensures e == t[0]
      {
      }
    }
  }

  /** A tabulated speed whose carry is 0 gives no carry at all: the exact test is a truthiness test. */
  lemma ZeroCarryKeyIsUnavailable(clubs: map<string, ClubProfile>, club: string, speed: real)
    requires club in clubs && DistinctSpeeds(clubs[club].carry)
    requires (speed, 0.0) in clubs[club].carry
    ensures ScratchCarry(clubs, club, speed) == None
  {
    var t := clubs[club].carry;
    ScratchCarryAvailable(clubs, club, speed);
    LookupFindsEntry(t, speed, 0.0);
    forall e | e in t && e.0 == speed
      ensures e.1 == 0.0
    {
      LookupFindsEntry(t, speed, e.1);
    }
  }
}
