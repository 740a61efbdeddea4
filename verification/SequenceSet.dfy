/** LiteCore/Support/SequenceSet.cc: a set of sequence numbers kept as ranges. The std::map from the
    start of a range to its end is the sequence of its entries in order of their keys. */
module SequenceSets {
  import opened Common

  /** The sequences from `first` up to, and not including, `end`. */
  datatype Range = Range(first: int, end: int) {
    predicate Contains(s: int) { first <= s < end }
  }

  type Ranges = seq<Range>

  /** Non-empty ranges in ascending order, no two of them overlapping or touching. */
  ghost predicate Canonical(rs: Ranges)
  {
    && (forall i :: 0 <= i < |rs| ==> 0 <= rs[i].first < rs[i].end)
    && (forall i, j :: 0 <= i < j < |rs| ==> rs[i].end < rs[j].first)
  }

  /** The set the ranges stand for. */
  ghost predicate Has(rs: Ranges, s: int)
  {
    exists i :: 0 <= i < |rs| && rs[i].Contains(s)
  }

  /** The index of the first range that starts after `s`. */
  function UpperBound(rs: Ranges, s: int): (k: nat)
    ensures k <= |rs|
    ensures k > 0 ==> rs[k - 1].first <= s
    ensures k < |rs| ==> rs[k].first > s
  {
    if rs == [] || rs[0].first > s then 0 else 1 + UpperBound(rs[1..], s)
  }

  /** `contains(begin, end)` */
  predicate Contains(rs: Ranges, begin: int, end: int)
  {
    var k := UpperBound(rs, begin);
    k > 0 && end <= rs[k - 1].end
  }

  /** `rs` with the ranges from index `a` up to `b` replaced by `mid`. */
  function Splice(rs: Ranges, a: nat, mid: Ranges, b: nat): Ranges
    requires a <= b <= |rs|
  {
    rs[..a] + mid + rs[b..]
  }

  /** `_add`: the new ranges and the index of the one that holds `s`. */
  function AddAt(rs: Ranges, s: int): (r: (Ranges, nat))
    ensures r.1 < |r.0|
  {
    var k := UpperBound(rs, s);
    if k < |rs| && s == rs[k].first - 1 then
      if k > 0 && rs[k - 1].end == s then (Splice(rs, k - 1, [Range(rs[k - 1].first, rs[k].end)], k + 1), k - 1)
      else (Splice(rs, k, [Range(s, rs[k].end)], k + 1), k)
    else if k > 0 && s < rs[k - 1].end then (rs, k - 1)
    else if k > 0 && s == rs[k - 1].end then (Splice(rs, k - 1, [Range(rs[k - 1].first, s + 1)], k), k - 1)
    else (Splice(rs, k, [Range(s, s + 1)], k), k)
  }

  function Add(rs: Ranges, s: int): Ranges { AddAt(rs, s).0 }

  /** `add(s0, s1)`: adds both ends and joins their ranges, dropping any in between. */
  function AddRange(rs: Ranges, s0: int, s1: int): Ranges
  {
    if s0 >= s1 then rs
    else
      var (rs1, lower) := AddAt(rs, s0);
      if s1 == s0 + 1 then rs1
      else
        var (rs2, upper) := AddAt(rs1, s1 - 1);
        if lower < upper then Splice(rs2, lower, [Range(rs2[lower].first, rs2[upper].end)], upper + 1) else rs2
  }

  function Remove(rs: Ranges, s: int): Ranges
  {
    var k := UpperBound(rs, s);
    if k == 0 || s >= rs[k - 1].end then rs
    else
      var r := rs[k - 1];
      if s == r.first then Splice(rs, k - 1, if s == r.end - 1 then [] else [Range(s + 1, r.end)], k)
      else Splice(rs, k - 1, if s == r.end - 1 then [Range(r.first, s)] else [Range(r.first, s), Range(s + 1, r.end)], k)
  }

  lemma {:induction false} UpperBoundSplits(rs: Ranges, s: int)
    requires Canonical(rs)
    ensures var k := UpperBound(rs, s);
            && (forall i :: 0 <= i < k - 1 ==> rs[i].end < s)
            && (forall i :: k <= i < |rs| ==> rs[i].first > s)
  {
  }

  lemma HasConcat(a: Ranges, b: Ranges, s: int)
    ensures Has(a + b, s) <==> Has(a, s) || Has(b, s)
  {
    if i :| 0 <= i < |a| && a[i].Contains(s) { assert (a + b)[i].Contains(s); }
    if i :| 0 <= i < |b| && b[i].Contains(s) { assert (a + b)[|a| + i].Contains(s); }
  }

  /** What a splice does to the set. */
  lemma HasSplice(rs: Ranges, a: nat, mid: Ranges, b: nat, s: int)
    requires a <= b <= |rs|
    ensures Has(Splice(rs, a, mid, b), s) <==> Has(rs[..a], s) || Has(mid, s) || Has(rs[b..], s)
    ensures Has(rs, s) <==> Has(rs[..a], s) || Has(rs[a..b], s) || Has(rs[b..], s)
  {
    HasConcat(rs[..a] + mid, rs[b..], s);
    HasConcat(rs[..a], mid, s);
    assert rs == rs[..a] + rs[a..b] + rs[b..];
    HasConcat(rs[..a] + rs[a..b], rs[b..], s);
    HasConcat(rs[..a], rs[a..b], s);
  }

  /** New ranges that keep their distance can replace old ones. */
  lemma CanonicalSplice(rs: Ranges, a: nat, mid: Ranges, b: nat)
    requires Canonical(rs) && Canonical(mid) && a <= b <= |rs|
    requires mid != [] && a > 0 ==> rs[a - 1].end < mid[0].first
    requires mid != [] && b < |rs| ==> mid[|mid| - 1].end < rs[b].first
    ensures Canonical(Splice(rs, a, mid, b))
  {
    var r := Splice(rs, a, mid, b);
    forall i, j | 0 <= i < j < |r| ensures r[i].end < r[j].first {
      if i < a && a <= j < a + |mid| { assert rs[i].end <= rs[a - 1].end && mid[0].first <= r[j].first; }
      if a <= i < a + |mid| && a + |mid| <= j { assert r[i].end <= mid[|mid| - 1].end && rs[b].first <= r[j].first; }
    }
  }

  lemma HasOne(r: Range, s: int)
    ensures Has([r], s) <==> r.Contains(s)
  {
    assert [r][0] == r;
  }

  /** `r` covers the ranges from `a` up to `b` and everything from `lo` up to `hi`, no more. */
  ghost predicate Covers(rs: Ranges, a: nat, b: nat, r: Range, lo: int, hi: int)
    requires a <= b <= |rs|
  {
    forall t :: r.Contains(t) <==> Has(rs[a..b], t) || lo <= t < hi
  }

  /** `rs'` stands for what `rs` does and the sequences from `lo` up to `hi`. */
  ghost predicate Adds(rs: Ranges, rs': Ranges, lo: int, hi: int)
  {
    Canonical(rs') && forall t :: Has(rs', t) <==> Has(rs, t) || lo <= t < hi
  }

  /** Replacing some ranges by one that covers them. */
  lemma ReplaceByOne(rs: Ranges, a: nat, r: Range, b: nat, lo: int, hi: int)
    requires Canonical(rs) && a <= b <= |rs| && 0 <= r.first < r.end
    requires a > 0 ==> rs[a - 1].end < r.first
    requires b < |rs| ==> r.end < rs[b].first
    requires Covers(rs, a, b, r, lo, hi)
    ensures Adds(rs, Splice(rs, a, [r], b), lo, hi)
  {
    CanonicalSplice(rs, a, [r], b);
    forall t ensures Has(Splice(rs, a, [r], b), t) <==> Has(rs, t) || lo <= t < hi {
      HasSplice(rs, a, [r], b, t);
      HasOne(r, t);
    }
  }

  lemma CoversNone(rs: Ranges, k: nat, s: int)
    requires k <= |rs|
    ensures Covers(rs, k, k, Range(s, s + 1), s, s + 1)
  {
  }

  lemma CoversOne(rs: Ranges, k: nat, r: Range, lo: int, hi: int)
    requires k < |rs| && forall t :: r.Contains(t) <==> rs[k].Contains(t) || lo <= t < hi
    ensures Covers(rs, k, k + 1, r, lo, hi)
  {
    assert rs[k..k + 1] == [rs[k]];
    forall t ensures r.Contains(t) <==> Has(rs[k..k + 1], t) || lo <= t < hi { HasOne(rs[k], t); }
  }

  lemma CoversTwo(rs: Ranges, k: nat, r: Range, lo: int, hi: int)
    requires k + 1 < |rs|
    requires forall t :: r.Contains(t) <==> rs[k].Contains(t) || rs[k + 1].Contains(t) || lo <= t < hi
    ensures Covers(rs, k, k + 2, r, lo, hi)
  {
    assert rs[k..k + 2] == [rs[k]] + [rs[k + 1]];
    forall t ensures r.Contains(t) <==> Has(rs[k..k + 2], t) || lo <= t < hi {
      HasConcat([rs[k]], [rs[k + 1]], t);
      HasOne(rs[k], t);
      HasOne(rs[k + 1], t);
    }
  }

  /** Where `s` falls among the ranges: `k` is the first that starts after it. */
  ghost predicate Falls(rs: Ranges, s: int, k: int)
  {
    && Canonical(rs) && 0 <= s && 0 <= k <= |rs|
    && (k > 0 ==> rs[k - 1].first <= s) && (k < |rs| ==> s < rs[k].first)
  }

  lemma AddMerges(rs: Ranges, s: int, k: nat)
    requires Falls(rs, s, k) && 0 < k < |rs| && rs[k - 1].end == s == rs[k].first - 1
    ensures Adds(rs, Splice(rs, k - 1, [Range(rs[k - 1].first, rs[k].end)], k + 1), s, s + 1)
  {
    hide Adds, Splice, Has, Covers;
    var r := Range(rs[k - 1].first, rs[k].end);
    CoversTwo(rs, k - 1, r, s, s + 1);
    ReplaceByOne(rs, k - 1, r, k + 1, s, s + 1);
  }

  lemma AddPrepends(rs: Ranges, s: int, k: nat)
    requires Falls(rs, s, k) && k < |rs| && s == rs[k].first - 1 && (k > 0 ==> rs[k - 1].end != s)
    ensures Adds(rs, Splice(rs, k, [Range(s, rs[k].end)], k + 1), s, s + 1)
  {
    hide Adds, Splice, Has, Covers;
    CoversOne(rs, k, Range(s, rs[k].end), s, s + 1);
    ReplaceByOne(rs, k, Range(s, rs[k].end), k + 1, s, s + 1);
  }

  lemma AddAppends(rs: Ranges, s: int, k: nat)
    requires Falls(rs, s, k) && k > 0 && s == rs[k - 1].end && (k < |rs| ==> s != rs[k].first - 1)
    ensures Adds(rs, Splice(rs, k - 1, [Range(rs[k - 1].first, s + 1)], k), s, s + 1)
  {
    hide Adds, Splice, Has, Covers;
    CoversOne(rs, k - 1, Range(rs[k - 1].first, s + 1), s, s + 1);
    ReplaceByOne(rs, k - 1, Range(rs[k - 1].first, s + 1), k, s, s + 1);
  }

  lemma AddSingleton(rs: Ranges, s: int, k: nat)
    requires Falls(rs, s, k) && (k > 0 ==> rs[k - 1].end < s) && (k < |rs| ==> s + 1 < rs[k].first)
    ensures Adds(rs, Splice(rs, k, [Range(s, s + 1)], k), s, s + 1)
  {
    CoversNone(rs, k, s);
    ReplaceByOne(rs, k, Range(s, s + 1), k, s, s + 1);
  }

  /** `_add` adds `s` and nothing else. */
  lemma AddAtCorrect(rs: Ranges, s: int)
    requires Canonical(rs) && 0 <= s
    ensures Adds(rs, AddAt(rs, s).0, s, s + 1)
  {
    var k := UpperBound(rs, s);
    assert Falls(rs, s, k);
    hide Adds, Splice, Canonical, UpperBound;
    if k < |rs| && s == rs[k].first - 1 {
      if k > 0 && rs[k - 1].end == s { AddMerges(rs, s, k); } else { AddPrepends(rs, s, k); }
    } else if k > 0 && s < rs[k - 1].end {
      AddsNothing(rs, k - 1, s);
    } else if k > 0 && s == rs[k - 1].end {
      AddAppends(rs, s, k);
    } else {
      AddSingleton(rs, s, k);
    }
  }

  lemma AddsNothing(rs: Ranges, i: nat, s: int)
    requires Canonical(rs) && i < |rs| && rs[i].Contains(s)
    ensures Adds(rs, rs, s, s + 1)
  {
  }

  lemma HasAt(rs: Ranges, i: nat, s: int)
    requires i < |rs| && rs[i].Contains(s)
    ensures Has(rs, s)
  {
  }

  /** `_add` says where `s` is, and leaves everything before a range at or below `s` alone. */
  lemma AddAtHolds(rs: Ranges, s: int, l: nat)
    requires Canonical(rs) && l < |rs| && rs[l].first <= s
    ensures var (rs', at) := AddAt(rs, s);
            l <= at && rs'[at].Contains(s) && rs'[l].first == rs[l].first
  {
    UpperBoundSplits(rs, s);
  }

  lemma AddAtContains(rs: Ranges, s: int)
    requires Canonical(rs)
    ensures var (rs', at) := AddAt(rs, s); rs'[at].Contains(s)
  {
  }

  lemma AddRangeCorrect(rs: Ranges, s0: int, s1: int)
    requires Canonical(rs) && 0 <= s0
    ensures Adds(rs, AddRange(rs, s0, s1), s0, s1)
  {
    hide AddAt, Splice;
    if s0 + 1 == s1 {
      AddAtCorrect(rs, s0);
    } else if s0 + 1 < s1 {
      AddWideRange(rs, s0, s1);
    }
  }

  lemma AddWideRange(rs: Ranges, s0: int, s1: int)
    requires Canonical(rs) && 0 <= s0 && s0 + 1 < s1
    ensures Adds(rs, AddRange(rs, s0, s1), s0, s1)
  {
    hide AddAt, Splice, Canonical, Adds;
    var (rs1, lower) := AddAt(rs, s0);
    var (rs2, upper) := AddAt(rs1, s1 - 1);
    AddAtCorrect(rs, s0);
    AddAtContains(rs, s0);
    AddsCanonical(rs, rs1, s0, s0 + 1);
    AddAtCorrect(rs1, s1 - 1);
    AddAtHolds(rs1, s1 - 1, lower);
    JoinRanges(rs, rs1, rs2, lower, upper, s0, s1);
  }

  lemma AddsCanonical(rs: Ranges, rs': Ranges, lo: int, hi: int)
    requires Adds(rs, rs', lo, hi)
    ensures Canonical(rs')
  {
  }

  /** The last step of adding a range: one range for all from the one with the first new member to
      the one with the last. */
  lemma JoinRanges(rs: Ranges, rs1: Ranges, rs2: Ranges, lower: nat, upper: nat, s0: int, s1: int)
    requires Adds(rs, rs1, s0, s0 + 1) && Adds(rs1, rs2, s1 - 1, s1)
    requires lower <= upper < |rs2| && s0 + 1 < s1
    requires lower < |rs1| && rs1[lower].Contains(s0) && rs2[lower].first == rs1[lower].first
    requires rs2[upper].Contains(s1 - 1)
    ensures lower == upper ==> Adds(rs, rs2, s0, s1)
    ensures lower < upper ==>
              Adds(rs, Splice(rs2, lower, [Range(rs2[lower].first, rs2[upper].end)], upper + 1), s0, s1)
  {
    hide Splice;
    if lower == upper {
      forall t | s0 <= t < s1 ensures Has(rs2, t) { HasAt(rs2, lower, t); }
    } else {
      var j := Range(rs2[lower].first, rs2[upper].end);
      CanonicalSplice(rs2, lower, [j], upper + 1);
      var r := Splice(rs2, lower, [j], upper + 1);
      forall t ensures Has(r, t) <==> Has(rs, t) || s0 <= t < s1 {
        JoinedHas(rs1, rs2, lower, upper, s0, s1, t);
        assert Has(rs2, t) <==> Has(rs1, t) || t == s1 - 1;
        assert Has(rs1, t) <==> Has(rs, t) || t == s0;
      }
      assert Adds(rs, r, s0, s1);
    }
  }

  lemma JoinedHas(rs1: Ranges, rs2: Ranges, lower: nat, upper: nat, s0: int, s1: int, t: int)
    requires Adds(rs1, rs2, s1 - 1, s1) && lower < upper < |rs2| && s0 + 1 < s1
    requires lower < |rs1| && rs1[lower].Contains(s0) && rs2[lower].first == rs1[lower].first
    requires rs2[upper].Contains(s1 - 1)
    ensures var j := Range(rs2[lower].first, rs2[upper].end);
            Has(Splice(rs2, lower, [j], upper + 1), t) <==> Has(rs2, t) || s0 <= t < s1
  {
    hide Splice;
    var j := Range(rs2[lower].first, rs2[upper].end);
    HasSplice(rs2, lower, [j], upper + 1, t);
    HasOne(j, t);
    if Has(rs2[lower..upper + 1], t) { WithinSlice(rs2, lower, upper, t); }
    if j.first <= t < s0 { HasAt(rs1, lower, t); }
    if s1 <= t < j.end { HasAt(rs2, upper, t); }
  }

  lemma WithinSlice(rs: Ranges, lower: nat, upper: nat, t: int)
    requires Canonical(rs) && lower <= upper < |rs| && Has(rs[lower..upper + 1], t)
    ensures rs[lower].first <= t < rs[upper].end
  {
    var i :| 0 <= i < upper + 1 - lower && rs[lower..upper + 1][i].Contains(t);
    assert rs[lower + i].Contains(t);
  }

  lemma RemoveCorrect(rs: Ranges, s: int)
    requires Canonical(rs)
    ensures Canonical(Remove(rs, s))
    ensures forall t :: Has(Remove(rs, s), t) <==> Has(rs, t) && t != s
  {
    UpperBoundSplits(rs, s);
    var k := UpperBound(rs, s);
    if k == 0 || s >= rs[k - 1].end {
      assert !Has(rs, s);
    } else {
      var r := rs[k - 1];
      if s == r.first {
        RemoveInside(rs, k - 1, if s == r.end - 1 then [] else [Range(s + 1, r.end)], s);
      } else {
        RemoveInside(rs, k - 1, if s == r.end - 1 then [Range(r.first, s)] else [Range(r.first, s), Range(s + 1, r.end)], s);
      }
    }
  }

  /** The range that holds `s` is replaced by what is left of it. */
  lemma RemoveInside(rs: Ranges, k: nat, mid: Ranges, s: int)
    requires Canonical(rs) && k < |rs| && rs[k].Contains(s)
    requires mid == Remnants(rs[k], s)
    ensures Canonical(Splice(rs, k, mid, k + 1))
    ensures forall t :: Has(Splice(rs, k, mid, k + 1), t) <==> Has(rs, t) && t != s
  {
    CanonicalSplice(rs, k, mid, k + 1);
    forall t ensures Has(Splice(rs, k, mid, k + 1), t) <==> Has(rs, t) && t != s {
      HasSplice(rs, k, mid, k + 1, t);
      RemnantsHave(rs[k], s, t);
      assert rs[k..k + 1] == [rs[k]];
      HasOne(rs[k], t);
      assert !Has(rs[..k], s) && !Has(rs[k + 1..], s);
    }
  }

  /** What is left of `r` without `s`. */
  function Remnants(r: Range, s: int): Ranges
  {
    (if r.first < s then [Range(r.first, s)] else []) + if s + 1 < r.end then [Range(s + 1, r.end)] else []
  }

  lemma RemnantsHave(r: Range, s: int, t: int)
    requires r.Contains(s)
    ensures Has(Remnants(r, s), t) <==> r.Contains(t) && t != s
  {
    var a := if r.first < s then [Range(r.first, s)] else [];
    var b := if s + 1 < r.end then [Range(s + 1, r.end)] else [];
    HasConcat(a, b, t);
    HasOne(Range(r.first, s), t);
    HasOne(Range(s + 1, r.end), t);
  }

  /** `contains`: a range is in the set exactly when each of its members is. */
  lemma ContainsCorrect(rs: Ranges, begin: int, end: int)
    requires Canonical(rs) && begin < end
    ensures Contains(rs, begin, end) <==> forall s :: begin <= s < end ==> Has(rs, s)
  {
    UpperBoundSplits(rs, begin);
    var k := UpperBound(rs, begin);
    if Contains(rs, begin, end) {
      forall s | begin <= s < end ensures Has(rs, s) { HasAt(rs, k - 1, s); }
    } else if k == 0 || rs[k - 1].end <= begin {
      assert !Has(rs, begin);
    } else {
      assert !Has(rs, rs[k - 1].end);
    }
  }

  /** Two canonical lists of ranges that stand for the same set are equal, so `operator==` on the
      ranges is equality of sets. */
  lemma {:induction false} CanonicalUnique(a: Ranges, b: Ranges)
    requires Canonical(a) && Canonical(b)
    requires forall t :: Has(a, t) <==> Has(b, t)
    ensures a == b
  {
    hide Has;
    if a == [] || b == [] {
      HasNone(if a != [] then a[0].first else if b != [] then b[0].first else 0);
      if a != [] { HasAt(a, 0, a[0].first); }
      if b != [] { HasAt(b, 0, b[0].first); }
    } else {
      SameFirstRange(a, b);
      forall t ensures Has(a[1..], t) <==> Has(b[1..], t) {
        HasTail(a, t);
        HasTail(b, t);
      }
      CanonicalUnique(a[1..], b[1..]);
      assert a == [a[0]] + a[1..] && b == [b[0]] + b[1..];
    }
  }

  lemma SameFirstRange(a: Ranges, b: Ranges)
    requires Canonical(a) && Canonical(b) && a != [] && b != []
    requires forall t :: Has(a, t) <==> Has(b, t)
    ensures a[0] == b[0]
  {
    hide Has;
    HasAt(a, 0, a[0].first);
    HasAt(b, 0, b[0].first);
    HasTail(a, b[0].first);
    HasTail(b, a[0].first);
    FirstGap(a);
    FirstGap(b);
    if a[0].end < b[0].end { HasAt(b, 0, a[0].end); }
    if b[0].end < a[0].end { HasAt(a, 0, b[0].end); }
  }

  lemma HasNone(t: int)
    ensures !Has([], t)
  {
  }

  lemma FirstGap(rs: Ranges)
    requires Canonical(rs) && rs != []
    ensures !Has(rs, rs[0].end)
  {
  }

  lemma HasTail(rs: Ranges, t: int)
    requires Canonical(rs) && rs != []
    ensures Has(rs[1..], t) <==> Has(rs, t) && t >= rs[0].end
    ensures Has(rs, t) ==> rs[0].first <= t
  {
    assert rs == [rs[0]] + rs[1..];
    HasConcat([rs[0]], rs[1..], t);
    HasOne(rs[0], t);
  }

  /** Merges two lists of ranges from the front, keeping what overlaps. */
  method Intersection(s1: Ranges, s2: Ranges) returns (r: Ranges)
    requires Canonical(s1) && Canonical(s2)
    ensures Canonical(r) && r == Shared(s1, s2)
    ensures forall t :: Has(r, t) <==> Has(s1, t) && Has(s2, t)
  {
    hide AddRange, Shared;
    r := [];
    var i1, i2 := 0, 0;
    assert s1[0..] == s1 && s2[0..] == s2;
    while i1 < |s1| && i2 < |s2|
      invariant 0 <= i1 <= |s1| && 0 <= i2 <= |s2|
      invariant Overlaps(r, s1, s2, i1, i2)
      decreases |s1| - i1 + |s2| - i2
    {
      var start := Max(s1[i1].first, s2[i2].first);
      var end := Min(s1[i1].end, s2[i2].end);
      ghost var r0 := r;
      if start < end {
        AddRangeCorrect(r, start, end);
        r := AddRange(r, start, end);
      }
      assert Adds(r0, r, start, end);
      var advanceFirst := s1[i1].end <= s2[i2].end;
      var advanceSecond := s1[i1].end >= s2[i2].end;
      OverlapsMore(r0, r, s1, s2, i1, i2);
      if advanceFirst { i1 := i1 + 1; }
      if advanceSecond { i2 := i2 + 1; }
    }
    SharedCorrect(s1, s2);
    CanonicalUnique(r, Shared(s1, s2));
  }

  /** `r` holds what the two sets share, except what they may still share from these indexes on. */
  ghost predicate Overlaps(r: Ranges, s1: Ranges, s2: Ranges, i1: nat, i2: nat)
    requires i1 <= |s1| && i2 <= |s2|
  {
    && Canonical(r)
    && (forall t :: Has(r, t) ==> Has(s1, t) && Has(s2, t))
    && (forall t :: Has(s1, t) && Has(s2, t) ==> Has(r, t) || (Has(s1[i1..], t) && Has(s2[i2..], t)))
  }

  lemma OverlapsMore(r: Ranges, r': Ranges, s1: Ranges, s2: Ranges, i1: nat, i2: nat)
    requires Canonical(s1) && Canonical(s2) && i1 < |s1| && i2 < |s2| && Overlaps(r, s1, s2, i1, i2)
    requires Adds(r, r', Max(s1[i1].first, s2[i2].first), Min(s1[i1].end, s2[i2].end))
    ensures Overlaps(r', s1, s2, if s1[i1].end <= s2[i2].end then i1 + 1 else i1,
                     if s1[i1].end >= s2[i2].end then i2 + 1 else i2)
  {
    forall t | Has(r', t) ensures Has(s1, t) && Has(s2, t) {
      if !Has(r, t) { HasAt(s1, i1, t); HasAt(s2, i2, t); }
    }
    forall t | Has(s1, t) && Has(s2, t) && !Has(r', t)
      ensures s1[i1].end <= s2[i2].end ==> Has(s1[i1 + 1..], t)
      ensures s1[i1].end >= s2[i2].end ==> Has(s2[i2 + 1..], t)
    {
      SuffixTail(s1, i1, t);
      SuffixTail(s2, i2, t);
    }
  }

  /** Past its first range, a suffix has what lies beyond that range. */
  lemma SuffixTail(rs: Ranges, i: nat, t: int)
    requires Canonical(rs) && i < |rs|
    ensures Has(rs[i + 1..], t) <==> Has(rs[i..], t) && t >= rs[i].end
    ensures Has(rs[i..], t) ==> rs[i].first <= t
  {
    assert rs[i..][1..] == rs[i + 1..];
    HasTail(rs[i..], t);
  }

  /** The ranges of what two sets share. */
  ghost function Shared(s1: Ranges, s2: Ranges): Ranges
    decreases |s1| + |s2|
  {
    if s1 == [] || s2 == [] then []
    else AddRange(Shared(if s1[0].end <= s2[0].end then s1[1..] else s1, if s1[0].end >= s2[0].end then s2[1..] else s2),
                  Max(s1[0].first, s2[0].first), Min(s1[0].end, s2[0].end))
  }

  lemma {:induction false} SharedCorrect(s1: Ranges, s2: Ranges)
    requires Canonical(s1) && Canonical(s2)
    ensures Canonical(Shared(s1, s2))
    ensures forall t :: Has(Shared(s1, s2), t) <==> Has(s1, t) && Has(s2, t)
    decreases |s1| + |s2|
  {
    hide AddRange;
    if s1 != [] && s2 != [] {
      var t1 := if s1[0].end <= s2[0].end then s1[1..] else s1;
      var t2 := if s1[0].end >= s2[0].end then s2[1..] else s2;
      SharedCorrect(t1, t2);
      AddRangeCorrect(Shared(t1, t2), Max(s1[0].first, s2[0].first), Min(s1[0].end, s2[0].end));
      forall t ensures Has(Shared(s1, s2), t) <==> Has(s1, t) && Has(s2, t) {
        SharedFirst(s1, s2, t);
      }
    }
  }

  lemma SharedFirst(s1: Ranges, s2: Ranges, t: int)
    requires Canonical(s1) && Canonical(s2) && s1 != [] && s2 != []
    ensures Has(s1, t) && Has(s2, t)
       <==> || Max(s1[0].first, s2[0].first) <= t < Min(s1[0].end, s2[0].end)
            || (Has(if s1[0].end <= s2[0].end then s1[1..] else s1, t)
                && Has(if s1[0].end >= s2[0].end then s2[1..] else s2, t))
  {
    hide Has;
    HasTail(s1, t);
    HasTail(s2, t);
    if s1[0].first <= t < s1[0].end { HasAt(s1, 0, t); }
    if s2[0].first <= t < s2[0].end { HasAt(s2, 0, t); }
  }

  /** `encode_fleece`: each range as its start and its length. */
  function Encode(rs: Ranges): (xs: seq<int>)
  {
    if rs == [] then [] else [rs[0].first, rs[0].end - rs[0].first] + Encode(rs[1..])
  }

  /** The numbers written are those, in turn. */
  lemma {:induction false} EncodedPairs(rs: Ranges, i: nat)
    requires i < |rs|
    ensures |Encode(rs)| == 2 * |rs|
    ensures Encode(rs)[2 * i] == rs[i].first && Encode(rs)[2 * i + 1] == rs[i].end - rs[i].first
  {
    var tail := Encode(rs[1..]);
    if |rs| > 1 { EncodedPairs(rs[1..], if i > 0 then i - 1 else 0); }
    assert Encode(rs)[2..] == tail;
    assert forall k :: 0 <= k < |tail| ==> Encode(rs)[2..][k] == Encode(rs)[k + 2];
    if i > 0 { assert tail[2 * (i - 1)] == Encode(rs)[2 * i] && tail[2 * (i - 1) + 1] == Encode(rs)[2 * i + 1]; }
  }

  /** `read_fleece`: adds the ranges read; stops at an empty range or one that overflows. */
  function ReadPairs(rs: Ranges, xs: seq<int>): (r: (bool, Ranges))
    decreases |xs|
  {
    if |xs| < 2 then (true, rs)
    else
      var first := xs[0] % TWO_64;
      var end := (first + xs[1]) % TWO_64;
      if end <= first then (false, rs) else ReadPairs(AddRange(rs, first, end), xs[2..])
  }

  function Read(rs: Ranges, xs: seq<int>): (r: (bool, Ranges))
  {
    if |xs| % 2 != 0 then (false, rs) else ReadPairs(rs, xs)
  }

  /** Whatever is read, nothing is lost. */
  lemma {:induction false} ReadGrows(rs: Ranges, xs: seq<int>)
    requires Canonical(rs)
    ensures Canonical(ReadPairs(rs, xs).1)
    ensures forall t :: Has(rs, t) ==> Has(ReadPairs(rs, xs).1, t)
    decreases |xs|
  {
    hide AddRange, Has, Canonical;
    if |xs| >= 2 {
      var first := xs[0] % TWO_64;
      var end := (first + xs[1]) % TWO_64;
      if end > first {
        AddRangeCorrect(rs, first, end);
        ReadGrows(AddRange(rs, first, end), xs[2..]);
      }
    }
  }

  /** Reading what was written adds exactly the set that was written. */
  lemma {:induction false} ReadEncoded(base: Ranges, rs: Ranges)
    requires Canonical(base) && Canonical(rs) && forall i :: 0 <= i < |rs| ==> rs[i].end < TWO_64
    ensures var (ok, r) := Read(base, Encode(rs));
            ok && Canonical(r) && forall t :: Has(r, t) <==> Has(base, t) || Has(rs, t)
    decreases |rs|
  {
    hide AddRange;
    if rs != [] {
      var base' := AddRange(base, rs[0].first, rs[0].end);
      AddRangeCorrect(base, rs[0].first, rs[0].end);
      ReadEncoded(base', rs[1..]);
      assert Encode(rs)[2..] == Encode(rs[1..]);
      forall t ensures Has(rs, t) <==> rs[0].Contains(t) || Has(rs[1..], t) {
        HasTail(rs, t);
        assert rs == [rs[0]] + rs[1..];
        HasConcat([rs[0]], rs[1..], t);
        HasOne(rs[0], t);
      }
    }
  }
}
