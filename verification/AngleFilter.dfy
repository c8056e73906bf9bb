/** The azimuth filter of lslidar_driver.cpp: requested angle intervals, in hundredths of a degree
    and around the circle, are cut at zero, sorted, merged, and used to drop firings. */
module AngleFilter {

  const FULL: int := 36000

  datatype AngleRange = AngleRange(start: int, end: int)

  const NOTHING: AngleRange := AngleRange(0, 0)

  /** The remainder of the source's language: it has the sign of the dividend. */
  function TruncatedRemainder(a: int, n: int): int
    requires n > 0
  {
    if a >= 0 then a % n else -((-a) % n)
  }

  function Wrapped(a: int): int {
    TruncatedRemainder(TruncatedRemainder(a, FULL) + FULL, FULL)
  }

  lemma WrappedIsModulo(a: int)
    ensures Wrapped(a) == a % FULL && 0 <= Wrapped(a) < FULL
  {
    if a < 0 {
      var b := -a;
      assert b == b / FULL * FULL + b % FULL;
      if b % FULL == 0 {
        ModuloUnique(a, -(b / FULL), 0);
      } else {
        ModuloUnique(a, -(b / FULL) - 1, FULL - b % FULL);
      }
    }
  }

  lemma ModuloUnique(a: int, q: int, r: int)
    requires a == q * FULL + r && 0 <= r < FULL
    ensures a % FULL == r
  {}

  /** Azimuth `az` lies on the arc that runs upwards from `min` to `max` around the circle. */
  predicate InArc(az: int, min: int, max: int) {
    (az - min) % FULL < (max - min) % FULL
  }

  predicate Contains(r: AngleRange, az: int) { r.start <= az < r.end }

  /** The ranges of one request. */
  function Cut(min: int, max: int): seq<AngleRange> {
    var start, end := Wrapped(min), Wrapped(max);
    if end < start then [AngleRange(start, FULL), AngleRange(0, end)]
    else [AngleRange(start, end)]
  }

  function CutAll(mins: seq<int>, maxs: seq<int>): seq<AngleRange>
    requires |mins| <= |maxs|
    decreases |mins|
  {
    if mins == [] then [] else CutAll(mins[..|mins| - 1], maxs) + Cut(mins[|mins| - 1], maxs[|mins| - 1])
  }

  predicate Covers(rs: seq<AngleRange>, az: int) {
    exists k :: 0 <= k < |rs| && Contains(rs[k], az)
  }

  /** `az` is on a requested arc. */
  predicate Requested(mins: seq<int>, maxs: seq<int>, az: int)
    requires |mins| <= |maxs|
  {
    exists i :: 0 <= i < |mins| && InArc(az, mins[i], maxs[i])
  }

  /** The first request with equal ends, or the number of requests. */
  function FirstEmpty(mins: seq<int>, maxs: seq<int>, from: nat): (k: nat)
    requires from <= |mins| <= |maxs|
    ensures from <= k <= |mins|
    decreases |mins| - from
  {
    if from < |mins| && mins[from] % FULL != maxs[from] % FULL then FirstEmpty(mins, maxs, from + 1) else from
  }

  /** Some request has equal ends. */
  predicate HasEmpty(mins: seq<int>, maxs: seq<int>)
    requires |mins| <= |maxs|
  {
    FirstEmpty(mins, maxs, 0) < |mins|
  }

  // ---------------------------------------------------------------------------
  // Merging

  function MergeOne(merged: seq<AngleRange>, r: AngleRange): seq<AngleRange>
    requires merged != []
  {
    var last := merged[|merged| - 1];
    if r.start < last.end then merged[|merged| - 1 := last.(end := if last.end < r.end then r.end else last.end)]
    else merged + [r]
  }

  function Merged(sorted: seq<AngleRange>): (merged: seq<AngleRange>)
    ensures sorted != [] ==> merged != []
    decreases |sorted|
  {
    if |sorted| <= 1 then sorted else MergeOne(Merged(sorted[..|sorted| - 1]), sorted[|sorted| - 1])
  }

  predicate ByStart(rs: seq<AngleRange>) {
    forall i, j :: 0 <= i < j < |rs| ==> rs[i].start <= rs[j].start
  }

  /** What sorting may give: the same ranges by start, equal starts in any order. */
  predicate SortOf(sorted: seq<AngleRange>, rs: seq<AngleRange>) {
    multiset(sorted) == multiset(rs) && ByStart(sorted)
  }

  predicate WellFormed(rs: seq<AngleRange>) {
    forall k :: 0 <= k < |rs| ==> 0 <= rs[k].start <= rs[k].end <= FULL
  }

  /** Sorted, and no two ranges overlap. */
  predicate Disjoint(rs: seq<AngleRange>) {
    forall i, j :: 0 <= i < j < |rs| ==> rs[i].end <= rs[j].start
  }

  lemma {:induction false} MergedShape(sorted: seq<AngleRange>)
    requires ByStart(sorted) && WellFormed(sorted) && sorted != []
    ensures WellFormed(Merged(sorted)) && Disjoint(Merged(sorted))
    ensures Merged(sorted)[|Merged(sorted)| - 1].start <= sorted[|sorted| - 1].start
    decreases |sorted|
  {
    if |sorted| > 1 {
      var front, r := sorted[..|sorted| - 1], sorted[|sorted| - 1];
      MergedShape(front);
      assert front[|front| - 1].start <= r.start;
    }
  }

  /** Merging keeps the union. */
  lemma {:induction false} MergedCovers(sorted: seq<AngleRange>, az: int)
    requires ByStart(sorted) && WellFormed(sorted)
    ensures Covers(Merged(sorted), az) <==> Covers(sorted, az)
    decreases |sorted|
  {
    if |sorted| > 1 {
      var front, r := sorted[..|sorted| - 1], sorted[|sorted| - 1];
      MergedCovers(front, az);
      MergedShape(front);
      assert front[|front| - 1].start <= r.start;
      hide Covers;
      hide Disjoint;
      CoversAppend(front, r, az);
      assert front + [r] == sorted;
      MergeOneCovers(Merged(front), r, az);
      hide MergeOne;
    }
  }

  /** Merging keeps the union and leaves sorted, disjoint ranges. */
  lemma MergedMeaning(sorted: seq<AngleRange>)
    requires ByStart(sorted) && WellFormed(sorted) && sorted != []
    ensures WellFormed(Merged(sorted)) && Disjoint(Merged(sorted))
    ensures forall az :: Covers(Merged(sorted), az) <==> Covers(sorted, az)
  {
    MergedShape(sorted);
    hide Covers;
    hide Merged;
    forall az ensures Covers(Merged(sorted), az) <==> Covers(sorted, az) {
      MergedCovers(sorted, az);
    }
  }

  lemma CoversAppend(rs: seq<AngleRange>, r: AngleRange, az: int)
    ensures Covers(rs + [r], az) <==> Covers(rs, az) || Contains(r, az)
  {
    assert (rs + [r])[|rs|] == r;
    assert forall k :: 0 <= k < |rs| ==> (rs + [r])[k] == rs[k];
  }

  lemma MergeOneCovers(m: seq<AngleRange>, r: AngleRange, az: int)
    requires m != [] && WellFormed(m) && m[|m| - 1].start <= r.start <= r.end
    ensures Covers(MergeOne(m, r), az) <==> Covers(m, az) || Contains(r, az)
  {
    var front, last := m[..|m| - 1], m[|m| - 1];
    assert m == front + [last];
    CoversAppend(front, last, az);
    if r.start < last.end {
      var grown := last.(end := if last.end < r.end then r.end else last.end);
      assert MergeOne(m, r) == front + [grown];
      CoversAppend(front, grown, az);
    } else {
      CoversAppend(m, r, az);
    }
  }

  /** The first merged range starts where the first sorted one does and reaches at least as far. */
  lemma {:induction false} MergedHead(sorted: seq<AngleRange>)
    requires sorted != [] && ByStart(sorted) && WellFormed(sorted)
    ensures Merged(sorted)[0].start == sorted[0].start && Merged(sorted)[0].end >= sorted[0].end
    ensures Merged(sorted)[0] == NOTHING <==> sorted[0] == NOTHING
    decreases |sorted|
  {
    if |sorted| > 1 {
      MergedHead(sorted[..|sorted| - 1]);
    }
  }

  // ---------------------------------------------------------------------------
  // Requests as arcs

  lemma ModuloDifference(x: int, y: int)
    ensures (x - y) % FULL == if x % FULL >= y % FULL then x % FULL - y % FULL else x % FULL - y % FULL + FULL
  {
    var q := x / FULL - y / FULL;
    var d := x % FULL - y % FULL;
    assert x == x / FULL * FULL + x % FULL && y == y / FULL * FULL + y % FULL;
    if d >= 0 { ModuloUnique(x - y, q, d); } else { ModuloUnique(x - y, q - 1, d + FULL); }
  }

  /** The ranges of a request cover exactly its arc. */
  lemma CutCoversArc(min: int, max: int, az: int)
    requires 0 <= az < FULL && min % FULL != max % FULL
    ensures Covers(Cut(min, max), az) <==> InArc(az, min, max)
    ensures WellFormed(Cut(min, max))
  {
    WrappedIsModulo(min);
    WrappedIsModulo(max);
    ModuloDifference(az, min);
    ModuloDifference(max, min);
    ModuloUnique(az, 0, az);
    hide Wrapped;
    hide InArc;
    var start, end := Wrapped(min), Wrapped(max);
    assert InArc(az, min, max) == ((az - min) % FULL < (max - min) % FULL) by { ArcMeans(az, min, max); }
    if end < start {
      assert Cut(min, max)[0] == AngleRange(start, FULL) && Cut(min, max)[1] == AngleRange(0, end);
    } else {
      assert Cut(min, max)[0] == AngleRange(start, end);
    }
  }

  lemma ArcMeans(az: int, min: int, max: int)
    ensures InArc(az, min, max) == ((az - min) % FULL < (max - min) % FULL)
  {}

  lemma {:induction false} FirstEmptyMeaning(mins: seq<int>, maxs: seq<int>, from: nat)
    requires from <= |mins| <= |maxs|
    ensures var k := FirstEmpty(mins, maxs, from);
      && (forall i :: from <= i < k ==> mins[i] % FULL != maxs[i] % FULL)
      && (k < |mins| ==> mins[k] % FULL == maxs[k] % FULL)
    decreases |mins| - from
  {
    if from < |mins| && mins[from] % FULL != maxs[from] % FULL { FirstEmptyMeaning(mins, maxs, from + 1); }
  }

  lemma CoversConcat(a: seq<AngleRange>, b: seq<AngleRange>, az: int)
    ensures Covers(a + b, az) <==> Covers(a, az) || Covers(b, az)
  {
    assert forall k :: 0 <= k < |a| ==> (a + b)[k] == a[k];
    assert forall k :: 0 <= k < |b| ==> (a + b)[|a| + k] == b[k];
    if Covers(a + b, az) {
      var k :| 0 <= k < |a + b| && Contains((a + b)[k], az);
      if k >= |a| { assert b[k - |a|] == (a + b)[k]; }
    }
  }

  lemma RequestedAppend(mins: seq<int>, maxs: seq<int>, az: int)
    requires 0 < |mins| <= |maxs|
    ensures var n := |mins| - 1;
      Requested(mins, maxs, az) <==> Requested(mins[..n], maxs, az) || InArc(az, mins[n], maxs[n])
  {
    hide InArc;
    var n := |mins| - 1;
    assert forall i :: 0 <= i < n ==> mins[..n][i] == mins[i];
  }

  /** The ranges of all requests cover exactly the requested arcs. */
  lemma {:induction false} CutAllCoversArcs(mins: seq<int>, maxs: seq<int>, az: int)
    requires |mins| <= |maxs| && 0 <= az < FULL
    requires forall i :: 0 <= i < |mins| ==> mins[i] % FULL != maxs[i] % FULL
    ensures Covers(CutAll(mins, maxs), az) <==> Requested(mins, maxs, az)
    ensures WellFormed(CutAll(mins, maxs)) && |CutAll(mins, maxs)| >= |mins|
    decreases |mins|
  {
    hide InArc;
    NothingCovered(az);
    if mins != [] {
      var n := |mins| - 1;
      CutAllCoversArcs(mins[..n], maxs, az);
      CutCoversArc(mins[n], maxs[n], az);
      CoversConcat(CutAll(mins[..n], maxs), Cut(mins[n], maxs[n]), az);
      RequestedAppend(mins, maxs, az);
      assert |Cut(mins[n], maxs[n])| >= 1;
      hide Cut;
      hide Covers;
      hide Requested;
    }
  }

  lemma PermutationCovers(a: seq<AngleRange>, b: seq<AngleRange>, az: int)
    requires multiset(a) == multiset(b)
    ensures Covers(a, az) <==> Covers(b, az)
  {
    if Covers(a, az) { PermutationCoversOneWay(a, b, az); }
    if Covers(b, az) { PermutationCoversOneWay(b, a, az); }
  }

  lemma PermutationCoversOneWay(a: seq<AngleRange>, b: seq<AngleRange>, az: int)
    requires multiset(a) == multiset(b) && Covers(a, az)
    ensures Covers(b, az)
  {
    var k :| 0 <= k < |a| && Contains(a[k], az);
    assert a[k] in multiset(b);
  }

  lemma PermutationWellFormed(a: seq<AngleRange>, b: seq<AngleRange>)
    requires multiset(a) == multiset(b) && WellFormed(b)
    ensures WellFormed(a)
  {
    forall k | 0 <= k < |a| ensures 0 <= a[k].start <= a[k].end <= FULL {
      assert a[k] in multiset(b);
    }
  }

  // ---------------------------------------------------------------------------
  // The filter

  /** The ranges the filter uses. A request with equal ends stops the computation, and the
      ranges before it are then neither sorted nor merged. */
  function Disabled(mins: seq<int>, maxs: seq<int>, sorted: seq<AngleRange>): seq<AngleRange>
    requires |mins| <= |maxs|
  {
    var k := FirstEmpty(mins, maxs, 0);
    if k < |mins| then CutAll(mins[..k], maxs) + [NOTHING] else Merged(sorted)
  }

  /** Whether a firing is kept: a first range of nothing turns the filter off. */
  predicate Passes(disabled: seq<AngleRange>, az: int)
    requires disabled != []
  {
    disabled[0] == NOTHING || !Covers(disabled, az)
  }

  /** `sorted` is what sorting the ranges may give, when they get that far. */
  predicate Sorting(mins: seq<int>, maxs: seq<int>, sorted: seq<AngleRange>)
    requires |mins| <= |maxs|
  {
    HasEmpty(mins, maxs) || SortOf(sorted, CutAll(mins, maxs))
  }

  lemma DisabledMeaning(mins: seq<int>, maxs: seq<int>, sorted: seq<AngleRange>)
    requires 0 < |mins| <= |maxs| && !HasEmpty(mins, maxs) && Sorting(mins, maxs, sorted)
    ensures var disabled := Disabled(mins, maxs, sorted);
      && disabled != [] && sorted != [] && WellFormed(disabled) && Disjoint(disabled)
      && (disabled[0] == NOTHING <==> sorted[0] == NOTHING)
      && (forall az :: 0 <= az < FULL ==> (Covers(disabled, az) <==> Requested(mins, maxs, az)))
  {
    FirstEmptyMeaning(mins, maxs, 0);
    CutAllCoversArcs(mins, maxs, 0);
    assert |multiset(sorted)| == |multiset(CutAll(mins, maxs))|;
    PermutationWellFormed(sorted, CutAll(mins, maxs));
    MergedMeaning(sorted);
    MergedHead(sorted);
    hide Merged;
    hide Covers;
    hide Requested;
    forall az | 0 <= az < FULL
      ensures Covers(Disabled(mins, maxs, sorted), az) <==> Requested(mins, maxs, az)
    {
      CutAllCoversArcs(mins, maxs, az);
      PermutationCovers(sorted, CutAll(mins, maxs), az);
    }
  }

  /** When no request has equal ends, the filter keeps exactly the azimuths on no requested arc
      if and only if the sorted ranges do not begin with the range of nothing. */
  lemma FilterIsExactIff(mins: seq<int>, maxs: seq<int>, sorted: seq<AngleRange>)
    requires 0 < |mins| <= |maxs| && !HasEmpty(mins, maxs) && Sorting(mins, maxs, sorted)
    ensures sorted != [] && Disabled(mins, maxs, sorted) != []
    ensures (forall az :: 0 <= az < FULL ==> (Passes(Disabled(mins, maxs, sorted), az) <==> !Requested(mins, maxs, az)))
       <==> sorted[0] != NOTHING
  {
    DisabledMeaning(mins, maxs, sorted);
    var az := mins[0] % FULL;
    StartIsRequested(mins, maxs);
    hide Disabled;
    hide Covers;
    hide Requested;
    if sorted[0] == NOTHING { assert Passes(Disabled(mins, maxs, sorted), az); }
  }

  lemma StartIsRequested(mins: seq<int>, maxs: seq<int>)
    requires 0 < |mins| <= |maxs| && !HasEmpty(mins, maxs)
    ensures 0 <= mins[0] % FULL < FULL && Requested(mins, maxs, mins[0] % FULL)
  {
    FirstEmptyMeaning(mins, maxs, 0);
    ModuloDifference(mins[0] % FULL, mins[0]);
    ModuloUnique(mins[0] % FULL, 0, mins[0] % FULL);
    ModuloDifference(maxs[0], mins[0]);
    assert InArc(mins[0] % FULL, mins[0], maxs[0]);
  }

  lemma {:induction false} OnlyZeroEndsGiveNothing(mins: seq<int>, maxs: seq<int>)
    requires |mins| <= |maxs| && forall i :: 0 <= i < |mins| ==> mins[i] % FULL != maxs[i] % FULL
    ensures NOTHING in CutAll(mins, maxs) <==> exists i :: 0 <= i < |mins| && maxs[i] % FULL == 0
    decreases |mins|
  {
    if mins != [] {
      var n := |mins| - 1;
      OnlyZeroEndsGiveNothing(mins[..n], maxs);
      WrappedIsModulo(mins[n]);
      WrappedIsModulo(maxs[n]);
      hide Wrapped;
      assert NOTHING in Cut(mins[n], maxs[n]) <==> maxs[n] % FULL == 0 by {
        if maxs[n] % FULL == 0 { assert Cut(mins[n], maxs[n])[1] == NOTHING; }
      }
    }
  }

  /** Requests whose ends are neither equal nor at zero are met exactly: what a firing is
      dropped for is being on a requested arc. */
  lemma NoEndAtZeroIsExact(mins: seq<int>, maxs: seq<int>, sorted: seq<AngleRange>, az: int)
    requires 0 < |mins| <= |maxs| && !HasEmpty(mins, maxs) && Sorting(mins, maxs, sorted) && 0 <= az < FULL
    requires forall i :: 0 <= i < |mins| ==> maxs[i] % FULL != 0
    ensures Disabled(mins, maxs, sorted) != []
    ensures Passes(Disabled(mins, maxs, sorted), az) <==> !Requested(mins, maxs, az)
  {
    FirstEmptyMeaning(mins, maxs, 0);
    OnlyZeroEndsGiveNothing(mins, maxs);
    DisabledMeaning(mins, maxs, sorted);
    assert NOTHING !in multiset(CutAll(mins, maxs));
    assert sorted[0] in multiset(sorted);
  }

  /** A request that ends at zero turns the whole filter off when no other range starts there. */
  lemma {:induction false} EndAtZeroTurnsItOff(mins: seq<int>, maxs: seq<int>, sorted: seq<AngleRange>, az: int)
    requires 0 < |mins| <= |maxs| && !HasEmpty(mins, maxs) && Sorting(mins, maxs, sorted)
    requires exists i :: 0 <= i < |mins| && maxs[i] % FULL == 0
    requires forall r :: r in CutAll(mins, maxs) && r.start == 0 ==> r == NOTHING
    ensures Disabled(mins, maxs, sorted) != [] && Passes(Disabled(mins, maxs, sorted), az)
  {
    FirstEmptyMeaning(mins, maxs, 0);
    OnlyZeroEndsGiveNothing(mins, maxs);
    DisabledMeaning(mins, maxs, sorted);
    CutAllCoversArcs(mins, maxs, 0);
    assert NOTHING in multiset(sorted);
    var k :| 0 <= k < |sorted| && sorted[k] == NOTHING;
    assert sorted[0] in multiset(CutAll(mins, maxs));
    PermutationWellFormed(sorted, CutAll(mins, maxs));
  }

  lemma FirstDecides(mins: seq<int>, maxs: seq<int>, sorted: seq<AngleRange>, az: int)
    requires 0 < |mins| <= |maxs| && !HasEmpty(mins, maxs) && Sorting(mins, maxs, sorted)
    requires 0 <= az < FULL && Requested(mins, maxs, az)
    ensures sorted != [] && Disabled(mins, maxs, sorted) != []
    ensures Passes(Disabled(mins, maxs, sorted), az) <==> sorted[0] == NOTHING
  {
    DisabledMeaning(mins, maxs, sorted);
  }

  const TWO_MINS: seq<int> := [18000, 35000]
  const TWO_MAXS: seq<int> := [0, 500]

  lemma TwoRequests()
    ensures !HasEmpty(TWO_MINS, TWO_MAXS) && Requested(TWO_MINS, TWO_MAXS, 20000)
  {
    FirstEmptyMeaning(TWO_MINS, TWO_MAXS, 0);
    assert InArc(20000, TWO_MINS[0], TWO_MAXS[0]);
  }

  const HEAD_FIRST: seq<AngleRange> :=
    [NOTHING, AngleRange(0, 500), AngleRange(18000, 36000), AngleRange(35000, 36000)]
  const HEAD_SECOND: seq<AngleRange> :=
    [AngleRange(0, 500), NOTHING, AngleRange(18000, 36000), AngleRange(35000, 36000)]

  lemma TwoOrders()
    ensures SortOf(HEAD_FIRST, CutAll(TWO_MINS, TWO_MAXS)) && SortOf(HEAD_SECOND, CutAll(TWO_MINS, TWO_MAXS))
  {
    CutTwo();
    hide CutAll;
    var p, q, r, s := AngleRange(18000, 36000), NOTHING, AngleRange(35000, 36000), AngleRange(0, 500);
    assert multiset(HEAD_FIRST) == multiset{p, q, r, s} == multiset(HEAD_SECOND);
  }

  /** With a second range that starts at zero, the order among equal starts decides: the same two
      requests may give a filter that drops what they name or one that drops nothing. */
  lemma OrderOfEqualStartsDecides()
    ensures exists a, b ::
      && SortOf(a, CutAll(TWO_MINS, TWO_MAXS)) && SortOf(b, CutAll(TWO_MINS, TWO_MAXS))
      && Disabled(TWO_MINS, TWO_MAXS, a) != [] && Passes(Disabled(TWO_MINS, TWO_MAXS, a), 20000)
      && Disabled(TWO_MINS, TWO_MAXS, b) != [] && !Passes(Disabled(TWO_MINS, TWO_MAXS, b), 20000)
  {
    hide CutAll;
    hide HasEmpty;
    hide Disabled;
    hide Requested;
    hide Passes;
    hide SortOf;
    TwoRequests();
    TwoOrders();
    FirstDecides(TWO_MINS, TWO_MAXS, HEAD_FIRST, 20000);
    FirstDecides(TWO_MINS, TWO_MAXS, HEAD_SECOND, 20000);
  }

  lemma CutTwo()
    ensures CutAll(TWO_MINS, TWO_MAXS)
         == [AngleRange(18000, 36000), NOTHING, AngleRange(35000, 36000), AngleRange(0, 500)]
  {
    assert TWO_MINS[..1] == [18000] && [18000][..0] == [];
    assert CutAll([18000], TWO_MAXS) == [AngleRange(18000, 36000), NOTHING];
  }

  /** A request with equal ends drops itself and every later request; those before it count. */
  lemma {:induction false} EmptyRequestEndsTheList(mins: seq<int>, maxs: seq<int>, sorted: seq<AngleRange>, az: int)
    requires |mins| <= |maxs| && HasEmpty(mins, maxs) && 0 <= az < FULL
    ensures Disabled(mins, maxs, sorted) != []
    ensures var k := FirstEmpty(mins, maxs, 0);
      Passes(Disabled(mins, maxs, sorted), az) <==> !Requested(mins[..k], maxs, az)
  {
    var k := FirstEmpty(mins, maxs, 0);
    FirstEmptyMeaning(mins, maxs, 0);
    CutAllCoversArcs(mins[..k], maxs, az);
    CoversAppend(CutAll(mins[..k], maxs), NOTHING, az);
    if k > 0 { FirstCutIsSomething(mins[..k], maxs); }
  }

  lemma {:induction false} FirstCutIsSomething(mins: seq<int>, maxs: seq<int>)
    requires 0 < |mins| <= |maxs| && mins[0] % FULL != maxs[0] % FULL
    ensures CutAll(mins, maxs) != [] && CutAll(mins, maxs)[0] != NOTHING
    decreases |mins|
  {
    WrappedIsModulo(mins[0]);
    WrappedIsModulo(maxs[0]);
    hide Wrapped;
    if |mins| > 1 {
      FirstCutIsSomething(mins[..|mins| - 1], maxs);
    } else {
      assert CutAll(mins[..0], maxs) == [];
      assert CutAll(mins, maxs) == Cut(mins[0], maxs[0]);
    }
  }

  // ---------------------------------------------------------------------------
  // The usable ranges

  function UsableBefore(rs: seq<AngleRange>): (seq<AngleRange>, int)
    decreases |rs|
  {
    if rs == [] then ([], 0)
    else
      var front, r := UsableBefore(rs[..|rs| - 1]), rs[|rs| - 1];
      (if front.1 < r.start then front.0 + [AngleRange(front.1, r.start)] else front.0, r.end)
  }

  function Usable(rs: seq<AngleRange>): seq<AngleRange> {
    var (usable, last) := UsableBefore(rs);
    if last < FULL then usable + [AngleRange(last, FULL)] else usable
  }

  lemma {:induction false} UsableBeforeIsComplement(rs: seq<AngleRange>, az: int)
    requires WellFormed(rs) && Disjoint(rs) && 0 <= az
    ensures var (usable, last) := UsableBefore(rs);
      && 0 <= last <= FULL && (rs == [] ==> last == 0) && (rs != [] ==> last == rs[|rs| - 1].end)
      && (Covers(usable, az) <==> az < last && !Covers(rs, az))
      && (Covers(rs, az) ==> az < last)
    decreases |rs|
  {
    NothingCovered(az);
    hide Covers;
    if rs != [] {
      var front, r := rs[..|rs| - 1], rs[|rs| - 1];
      LastIsApart(rs);
      hide Disjoint;
      hide WellFormed;
      UsableBeforeIsComplement(front, az);
      CoversAppend(front, r, az);
      CoversAppend(UsableBefore(front).0, AngleRange(UsableBefore(front).1, r.start), az);
    }
  }

  lemma LastIsApart(rs: seq<AngleRange>)
    requires WellFormed(rs) && Disjoint(rs) && rs != []
    ensures var front, r := rs[..|rs| - 1], rs[|rs| - 1];
      && rs == front + [r] && WellFormed(front) && Disjoint(front) && 0 <= r.start <= r.end <= FULL
      && (front != [] ==> front[|front| - 1].end <= r.start)
  {}

  lemma NothingCovered(az: int)
    ensures !Covers([], az)
  {}

  /** The usable ranges are exactly the azimuths on no requested arc. */
  lemma UsableIsComplement(mins: seq<int>, maxs: seq<int>, sorted: seq<AngleRange>, az: int)
    requires 0 < |mins| <= |maxs| && !HasEmpty(mins, maxs) && Sorting(mins, maxs, sorted) && 0 <= az < FULL
    ensures Covers(Usable(Disabled(mins, maxs, sorted)), az) <==> !Requested(mins, maxs, az)
  {
    DisabledMeaning(mins, maxs, sorted);
    var rs := Disabled(mins, maxs, sorted);
    UsableBeforeIsComplement(rs, az);
    var (usable, last) := UsableBefore(rs);
    CoversAppend(usable, AngleRange(last, FULL), az);
    hide Covers;
    hide Disabled;
  }

  /** After a request with equal ends every azimuth is listed as usable, whatever the earlier
      requests drop. */
  lemma UsableAfterEmptyRequest(mins: seq<int>, maxs: seq<int>, sorted: seq<AngleRange>, az: int)
    requires |mins| <= |maxs| && HasEmpty(mins, maxs) && 0 <= az < FULL
    ensures Covers(Usable(Disabled(mins, maxs, sorted)), az)
  {
    var rs := Disabled(mins, maxs, sorted);
    var (usable, last) := UsableBefore(rs);
    assert last == 0;
    CoversAppend(usable, AngleRange(0, FULL), az);
  }

  // ---------------------------------------------------------------------------
  // The driver's code

  /** Extends the last merged range while ranges overlap it. */
  method MergeRanges(sorted: seq<AngleRange>) returns (merged: seq<AngleRange>)
    requires ByStart(sorted) && WellFormed(sorted)
    ensures merged == Merged(sorted) && Disjoint(merged)
    ensures forall az :: Covers(merged, az) <==> Covers(sorted, az)
  {
    if sorted == [] { return []; }
    MergedMeaning(sorted);
    merged := [sorted[0]];
    for i := 1 to |sorted|
      invariant merged == Merged(sorted[..i])
    {
      assert sorted[..i + 1][..i] == sorted[..i];
      var last := |merged| - 1;
      if sorted[i].start < merged[last].end {
        var end := if merged[last].end < sorted[i].end then sorted[i].end else merged[last].end;
        merged := merged[last := merged[last].(end := end)];
      } else {
        merged := merged + [sorted[i]];
      }
    }
    assert sorted[..|sorted|] == sorted;
  }

  /** The ranges to drop; `sorted` stands for the library's sort, used once all requests are cut. */
  lemma CutNext(mins: seq<int>, maxs: seq<int>, i: nat)
    requires i < |mins| <= |maxs|
    ensures CutAll(mins[..i + 1], maxs) == CutAll(mins[..i], maxs) + Cut(mins[i], maxs[i])
  {
    assert mins[..i + 1][..i] == mins[..i];
  }

  lemma SortedFits(mins: seq<int>, maxs: seq<int>, sorted: seq<AngleRange>)
    requires |mins| <= |maxs| && SortOf(sorted, CutAll(mins, maxs))
    requires forall i :: 0 <= i < |mins| ==> mins[i] % FULL != maxs[i] % FULL
    ensures ByStart(sorted) && WellFormed(sorted)
  {
    hide CutAll;
    hide Covers;
    hide Requested;
    hide WellFormed;
    hide ByStart;
    CutAllCoversArcs(mins, maxs, 0);
    PermutationWellFormed(sorted, CutAll(mins, maxs));
  }

  /** The ranges of one request go to the list; `empty` when its ends are equal. */
  method AddRequest(ranges: seq<AngleRange>, min: int, max: int) returns (more: seq<AngleRange>, empty: bool)
    ensures empty <==> min % FULL == max % FULL
    ensures more == ranges + (if empty then [NOTHING] else Cut(min, max))
  {
    WrappedIsModulo(min);
    WrappedIsModulo(max);
    var start, end := Wrapped(min), Wrapped(max);
    hide Wrapped;
    if end == start {
      return ranges + [AngleRange(0, 0)], true;
    } else if end < start {
      more := ranges + [AngleRange(start, FULL)];
      more := more + [AngleRange(0, end)];
    } else {
      more := ranges + [AngleRange(start, end)];
    }
    empty := false;
  }

  method CalculateDisableAngles(mins: seq<int>, maxs: seq<int>, sorted: seq<AngleRange>) returns (disabled: seq<AngleRange>)
    requires |mins| <= |maxs| && Sorting(mins, maxs, sorted)
    ensures disabled == Disabled(mins, maxs, sorted)
  {
    hide FirstEmpty;
    hide Merged;
    hide Cut;
    FirstEmptyMeaning(mins, maxs, 0);
    ghost var k := FirstEmpty(mins, maxs, 0);
    var all := [];
    for i := 0 to |mins|
      invariant i <= k && all == CutAll(mins[..i], maxs)
    {
      hide CutAll;
      CutNext(mins, maxs, i);
      var empty;
      all, empty := AddRequest(all, mins[i], maxs[i]);
      if empty { return all; }
    }
    assert mins[..|mins|] == mins;
    SortedFits(mins, maxs, sorted);
    hide CutAll;
    hide WellFormed;
    hide ByStart;
    disabled := MergeRanges(sorted);
  }

  method IsSkipAngle(disabled: seq<AngleRange>, az: int) returns (outside: bool)
    ensures outside <==> !Covers(disabled, az)
  {
    for k := 0 to |disabled|
      invariant forall j :: 0 <= j < k ==> !Contains(disabled[j], az)
    {
      if az >= disabled[k].start && az < disabled[k].end { return false; }
    }
    return true;
  }

  method UsableAngles(disabled: seq<AngleRange>) returns (usable: seq<AngleRange>)
    ensures usable == Usable(disabled)
  {
    usable := [];
    var lastEnd := 0;
    for k := 0 to |disabled|
      invariant (usable, lastEnd) == UsableBefore(disabled[..k])
    {
      assert disabled[..k + 1][..k] == disabled[..k];
      if lastEnd < disabled[k].start { usable := usable + [AngleRange(lastEnd, disabled[k].start)]; }
      lastEnd := disabled[k].end;
    }
    assert disabled[..|disabled|] == disabled;
    if lastEnd < FULL { usable := usable + [AngleRange(lastEnd, FULL)]; }
  }
}
