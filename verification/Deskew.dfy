/** The rotation table of imageProjection.cpp: gyroscope samples summed into a table of times
    and angles, and its piecewise-linear lookup, over the reals. */
module Deskew {
  import opened Basics

  datatype Imu = Imu(stamp: real, rate: Vec3, attitude: Vec3)

  // ---------------------------------------------------------------------------
  // The integral the table stands for, one axis at a time

  /** Strictly increasing stamps, one rate per stamp, and at least one of each. */
  predicate Table(ts: seq<real>, ws: seq<real>) {
    |ts| == |ws| > 0 && forall a, b :: 0 <= a < b < |ts| ==> ts[a] < ts[b]
  }

  /** Rates summed up to sample `k`; the first sample only starts the clock. */
  function Cumulative(ts: seq<real>, ws: seq<real>, k: nat): real
    requires k < |ts| && |ts| == |ws|
  {
    if k == 0 then 0.0 else Cumulative(ts, ws, k - 1) + ws[k] * (ts[k] - ts[k - 1])
  }

  /** The angle turned by time `t`: the integral of a rate that is `ws[k]` from sample `k - 1`
      to sample `k` and zero outside the samples, counting the first `n` samples. */
  function Angle(ts: seq<real>, ws: seq<real>, n: nat, t: real): real
    requires 0 < n <= |ts| && |ts| == |ws|
  {
    if n == 1 then 0.0
    else if t >= ts[n - 1] then Cumulative(ts, ws, n - 1)
    else if t >= ts[n - 2] then Cumulative(ts, ws, n - 2) + ws[n - 1] * (t - ts[n - 2])
    else Angle(ts, ws, n - 1, t)
  }

  // ---------------------------------------------------------------------------
  // What the integral promises

  lemma {:induction false} AngleAtSample(ts: seq<real>, ws: seq<real>, n: nat, k: nat)
    requires Table(ts, ws) && k < n <= |ts|
    ensures Angle(ts, ws, n, ts[k]) == Cumulative(ts, ws, k)
  {
    if n > 1 && k < n - 1 {
      if k == n - 2 {
        assert ts[n - 2] < ts[n - 1];
      } else {
        AngleAtSample(ts, ws, n - 1, k);
      }
    }
  }

  lemma {:induction false} AngleClamps(ts: seq<real>, ws: seq<real>, n: nat, t: real)
    requires Table(ts, ws) && 0 < n <= |ts|
    ensures t <= ts[0] ==> Angle(ts, ws, n, t) == 0.0
    ensures t >= ts[n - 1] ==> Angle(ts, ws, n, t) == Cumulative(ts, ws, n - 1)
  {
    if n > 1 && t <= ts[0] {
      AngleClamps(ts, ws, n - 1, t);
      assert ts[0] < ts[n - 1];
      if n > 2 {
        assert ts[0] < ts[n - 2];
      } else {
        assert t >= ts[0] ==> ws[1] * (t - ts[0]) == 0.0;
      }
    }
  }

  predicate Bounded(ws: seq<real>, m: real) {
    forall k :: 0 <= k < |ws| ==> -m <= ws[k] <= m
  }

  predicate Within(a: real, b: real, bound: real) {
    -bound <= a - b <= bound
  }

  function Mul(a: real, b: real): real { a * b }

  lemma MulBound(w: real, m: real, d: real)
    requires -m <= w <= m && 0.0 <= d
    ensures -Mul(m, d) <= Mul(w, d) <= Mul(m, d)
    ensures 0.0 <= Mul(m, d)
  {}

  lemma MulSum(m: real, a: real, b: real)
    ensures Mul(m, a) + Mul(m, b) == Mul(m, a + b)
    ensures Mul(m, a) - Mul(m, b) == Mul(m, a - b)
  {}

  /** The last stretch, end included, and everything after it. */
  lemma AngleOnLastStretch(ts: seq<real>, ws: seq<real>, n: nat, t: real)
    requires Table(ts, ws) && 1 < n <= |ts| && ts[n - 2] <= t
    ensures Angle(ts, ws, n, t) ==
      Cumulative(ts, ws, n - 2) + Mul(ws[n - 1], (if t < ts[n - 1] then t else ts[n - 1]) - ts[n - 2])
  {}

  lemma StretchBound(ts: seq<real>, ws: seq<real>, n: nat, t1: real, t2: real, m: real)
    requires Table(ts, ws) && 1 < n <= |ts| && Bounded(ws, m) && ts[n - 2] <= t1 <= t2
    ensures Within(Angle(ts, ws, n, t2), Angle(ts, ws, n, t1), Mul(m, t2 - t1))
  {
    hide Mul;
    hide Angle;
    hide Cumulative;
    var a := (if t1 < ts[n - 1] then t1 else ts[n - 1]) - ts[n - 2];
    var b := (if t2 < ts[n - 1] then t2 else ts[n - 1]) - ts[n - 2];
    AngleOnLastStretch(ts, ws, n, t1);
    AngleOnLastStretch(ts, ws, n, t2);
    MulSum(ws[n - 1], b, a);
    MulBound(ws[n - 1], m, b - a);
    var rest := t2 - t1 - (b - a);
    MulBound(ws[n - 1], m, rest);
    MulSum(m, b - a, rest);
    assert (b - a) + rest == t2 - t1;
  }

  /** Between any two point times the angle changes by at most the fastest rate times the
      time between them. */
  lemma {:induction false} AngleIsLipschitz(ts: seq<real>, ws: seq<real>, n: nat, t1: real, t2: real, m: real)
    requires Table(ts, ws) && 0 < n <= |ts| && Bounded(ws, m) && t1 <= t2
    ensures Within(Angle(ts, ws, n, t2), Angle(ts, ws, n, t1), Mul(m, t2 - t1))
  {
    hide Mul;
    hide Cumulative;
    MulBound(ws[0], m, t2 - t1);
    if n > 1 {
      var mid := ts[n - 2];
      assert mid < ts[n - 1];
      if t1 >= mid {
        StretchBound(ts, ws, n, t1, t2, m);
      } else if t2 < mid {
        AngleIsLipschitz(ts, ws, n - 1, t1, t2, m);
      } else {
        AngleIsLipschitz(ts, ws, n - 1, t1, mid, m);
        StretchBound(ts, ws, n, mid, t2, m);
        AngleAtSample(ts, ws, n, n - 2);
        AngleAtSample(ts, ws, n - 1, n - 2);
        MulSum(m, mid - t1, t2 - mid);
        assert (mid - t1) + (t2 - mid) == t2 - t1;
      }
    }
  }

  // ---------------------------------------------------------------------------
  // The formulas of the code

  lemma CancelFactor(x: real, y: real, d: real)
    requires d > 0.0 && x * d == y * d
    ensures x == y
  {
    assert (x - y) * d == 0.0;
  }

  lemma Ratios(d: real, u: real)
    requires d > 0.0
    ensures (u / d) * d == u && (d - u) / d == 1.0 - u / d
  {
    var f := u / d;
    assert f * d == u;
    assert (1.0 - f) * d == d - u;
    CancelFactor((d - u) / d, 1.0 - f, d);
  }

  lemma BlendWith(r0: real, w: real, d: real, f: real)
    ensures (r0 + w * d) * f + r0 * (1.0 - f) == r0 + w * (f * d)
  {
    assert (r0 + w * d) * f == r0 * f + (w * d) * f;
    assert (w * d) * f == w * (f * d);
  }

  /** Blending the two neighbours in proportion is the linear form. */
  lemma BlendIsLinear(r0: real, w: real, t0: real, t1: real, t: real)
    requires t0 < t1
    ensures (r0 + w * (t1 - t0)) * ((t - t0) / (t1 - t0)) + r0 * ((t1 - t) / (t1 - t0)) == r0 + w * (t - t0)
  {
    Ratios(t1 - t0, t - t0);
    assert t1 - t == (t1 - t0) - (t - t0);
    BlendWith(r0, w, t1 - t0, (t - t0) / (t1 - t0));
  }

  lemma BlendOf(r0: real, r1: real, w: real, t0: real, t1: real, t: real)
    requires t0 < t1 && r1 == r0 + w * (t1 - t0)
    ensures Blend(r0, r1, t0, t1, t) == r0 + Mul(w, t - t0)
  {
    BlendIsLinear(r0, w, t0, t1, t);
  }

  /** Walking down from the top of the table finds the stretch around `t`. */
  lemma {:induction false} AngleOnStretch(ts: seq<real>, ws: seq<real>, n: nat, k: nat, t: real)
    requires Table(ts, ws) && 0 < k < n <= |ts| && ts[k - 1] <= t < ts[k]
    ensures Angle(ts, ws, n, t) == Cumulative(ts, ws, k - 1) + ws[k] * (t - ts[k - 1])
  {
    if k < n - 1 {
      assert ts[k] <= ts[n - 2] < ts[n - 1];
      AngleOnStretch(ts, ws, n - 1, k, t);
    }
  }

  const QUEUE_LENGTH: nat := 2000

  /** The samples that are not older than the scan by more than a hundredth of a second. */
  function DropOld(q: seq<Imu>, scanStart: real): seq<Imu> {
    if q != [] && q[0].stamp < scanStart - 0.01 then DropOld(q[1..], scanStart) else q
  }

  /** How many samples from `k` on are used: up to the first that is late. */
  function Used(q: seq<Imu>, scanEnd: real): (n: nat)
    ensures n <= |q|
  {
    if q != [] && q[0].stamp <= scanEnd + 0.01 then 1 + Used(q[1..], scanEnd) else 0
  }

  /** Exactly the samples more than a hundredth of a second older than the scan are dropped from the
      front, and the table is made of those up to the first more than a hundredth later than its end. */
  lemma {:induction false} DroppedMeaning(q: seq<Imu>, scanStart: real)
    ensures var kept := DropOld(q, scanStart);
      var n := |q| - |kept|;
      && 0 <= n && kept == q[n..]
      && (forall k :: 0 <= k < n ==> scanStart - q[k].stamp > 0.01)
      && (kept != [] ==> scanStart - kept[0].stamp <= 0.01)
    decreases |q|
  {
    if q != [] && q[0].stamp < scanStart - 0.01 { DroppedMeaning(q[1..], scanStart); }
  }

  lemma {:induction false} UsedMeaning(q: seq<Imu>, scanEnd: real)
    ensures var n := Used(q, scanEnd);
      && (forall k :: 0 <= k < n ==> q[k].stamp - scanEnd <= 0.01)
      && (n < |q| ==> q[n].stamp - scanEnd > 0.01)
    decreases |q|
  {
    if q != [] && q[0].stamp <= scanEnd + 0.01 { UsedMeaning(q[1..], scanEnd); }
  }

  function Stamps(q: seq<Imu>): seq<real> { seq(|q|, i requires 0 <= i < |q| => q[i].stamp) }

  function RatesX(q: seq<Imu>): seq<real> { seq(|q|, i requires 0 <= i < |q| => q[i].rate.x) }

  function RatesY(q: seq<Imu>): seq<real> { seq(|q|, i requires 0 <= i < |q| => q[i].rate.y) }

  function RatesZ(q: seq<Imu>): seq<real> { seq(|q|, i requires 0 <= i < |q| => q[i].rate.z) }

  lemma {:induction false} UsedPrefix(q: seq<Imu>, scanEnd: real, k: nat)
    requires k <= |q| && (forall i :: 0 <= i < k ==> q[i].stamp <= scanEnd + 0.01)
    ensures Used(q, scanEnd) >= k
    ensures k < |q| && q[k].stamp > scanEnd + 0.01 ==> Used(q, scanEnd) == k
    ensures k == |q| ==> Used(q, scanEnd) == k
    decreases k
  {
    if k > 0 {
      UsedPrefix(q[1..], scanEnd, k - 1);
    }
  }

  /** One axis of the filled table. */
  predicate Holds(rot: seq<real>, q: seq<Imu>, ws: seq<real>, n: nat)
    requires n <= |q| == |ws| && n <= |rot|
  {
    forall k :: 0 <= k < n ==> rot[k] == Cumulative(Stamps(q), ws, k)
  }

  class Projector {
    var imuQueue: seq<Imu>
    var timeScanCur: real
    var timeScanEnd: real
    const imuTime: array<real>
    const imuRotX: array<real>
    const imuRotY: array<real>
    const imuRotZ: array<real>
    var imuPointerCur: int
    var imuAvailable: bool
    /** Attitude at the start of the scan. */
    var imuInit: Vec3

    ghost predicate Valid() {
      && imuTime.Length == imuRotX.Length == imuRotY.Length == imuRotZ.Length == QUEUE_LENGTH
      && imuTime != imuRotX && imuTime != imuRotY && imuTime != imuRotZ
      && imuRotX != imuRotY && imuRotX != imuRotZ && imuRotY != imuRotZ
    }

    constructor ()
      ensures Valid() && imuQueue == [] && !imuAvailable
    {
      imuQueue, timeScanCur, timeScanEnd, imuPointerCur, imuAvailable := [], 0.0, 0.0, 0, false;
      imuInit := Vec3(0.0, 0.0, 0.0);
      imuTime, imuRotX := new real[QUEUE_LENGTH], new real[QUEUE_LENGTH];
      imuRotY, imuRotZ := new real[QUEUE_LENGTH], new real[QUEUE_LENGTH];
    }

    /** The first `n` rows of the table are the running sums over `q`. */
    ghost predicate Filled(q: seq<Imu>, n: nat)
      requires Valid() && n <= |q| && n <= QUEUE_LENGTH
      reads imuTime, imuRotX, imuRotY, imuRotZ
    {
      && imuTime[..n] == Stamps(q)[..n]
      && Holds(imuRotX[..], q, RatesX(q), n)
      && Holds(imuRotY[..], q, RatesY(q), n)
      && Holds(imuRotZ[..], q, RatesZ(q), n)
    }

    /** Pops what is too old for the scan. */
    method PopOld()
      modifies this`imuQueue
      ensures imuQueue == DropOld(old(imuQueue), timeScanCur)
    {
      while imuQueue != []
        invariant DropOld(imuQueue, timeScanCur) == DropOld(old(imuQueue), timeScanCur)
        decreases |imuQueue|
      {
        if imuQueue[0].stamp < timeScanCur - 0.01 {
          imuQueue := imuQueue[1..];
        } else {
          break;
        }
      }
    }

    /** The samples looked at: those used, and the one that is too late. */
    function Seen(): seq<Imu>
      reads this
    {
      var n := Used(imuQueue, timeScanEnd);
      imuQueue[..if n < |imuQueue| then n + 1 else n]
    }

    /** Fills the table for one scan. */
    method ImuDeskewInfo()
      requires Valid()
      requires Used(DropOld(imuQueue, timeScanCur), timeScanEnd) <= QUEUE_LENGTH
      modifies this`imuQueue, this`imuPointerCur, this`imuAvailable, this`imuInit, imuTime, imuRotX, imuRotY, imuRotZ
      ensures imuQueue == DropOld(old(imuQueue), timeScanCur)
      ensures var n := Used(imuQueue, timeScanEnd);
        && (imuAvailable <==> n >= 2)
        && (imuQueue != [] ==> imuPointerCur == n - 1)
        && Filled(imuQueue, n)
      ensures AttitudeAt(Seen(), timeScanCur, old(imuInit), imuInit)
    {
      imuAvailable := false;
      PopOld();
      NoAttitude(timeScanCur, imuInit);
      if imuQueue == [] { return; }
      FillTable();
      imuPointerCur := imuPointerCur - 1;
      if imuPointerCur <= 0 { return; }
      imuAvailable := true;
    }

    method FillTable()
      requires Valid() && Used(imuQueue, timeScanEnd) <= QUEUE_LENGTH
      modifies this`imuPointerCur, this`imuInit, imuTime, imuRotX, imuRotY, imuRotZ
      ensures imuPointerCur == Used(imuQueue, timeScanEnd)
      ensures Filled(imuQueue, Used(imuQueue, timeScanEnd))
      ensures AttitudeAt(Seen(), timeScanCur, old(imuInit), imuInit)
    {
      hide AttitudeAt;
      imuPointerCur := 0;
      var i := 0;
      ghost var seen := 0;
      NoAttitude(timeScanCur, imuInit);
      while i < |imuQueue|
        invariant 0 <= i == imuPointerCur <= |imuQueue| && i <= QUEUE_LENGTH && seen == i
        invariant forall k :: 0 <= k < i ==> imuQueue[k].stamp <= timeScanEnd + 0.01
        invariant Filled(imuQueue, i)
        invariant AttitudeAt(imuQueue[..seen], timeScanCur, old(imuInit), imuInit)
      {
        var thisImuMsg := imuQueue[i];
        var currentImuTime := thisImuMsg.stamp;
        ghost var before := imuInit;
        if currentImuTime <= timeScanCur { imuInit := thisImuMsg.attitude; }
        AttitudeNext(imuQueue, i, timeScanCur, old(imuInit), before, imuInit);
        seen := i + 1;
        if currentImuTime > timeScanEnd + 0.01 { break; }
        UsedPrefix(imuQueue, timeScanEnd, i + 1);
        StoreSample(i, thisImuMsg);
        imuPointerCur := imuPointerCur + 1;
        i := i + 1;
      }
      UsedPrefix(imuQueue, timeScanEnd, i);
    }

    /** Adds a row to one axis: the first only starts the clock, the others add rate times
        time. */
    method StoreAxis(rot: array<real>, i: nat, rate: real, timeDiff: real, ghost q: seq<Imu>, ghost ws: seq<real>)
      requires i < rot.Length && i < |q| == |ws| && ws[i] == rate && Holds(rot[..], q, ws, i)
      requires i > 0 ==> timeDiff == q[i].stamp - q[i - 1].stamp
      modifies rot
      ensures Holds(rot[..], q, ws, i + 1)
    {
      ghost var before := rot[..];
      rot[i] := if i == 0 then 0.0 else rot[i - 1] + rate * timeDiff;
      HoldsNext(before, rot[..], q, ws, i);
    }

    /** One row of the table. */
    method StoreSample(i: nat, sample: Imu)
      requires Valid() && i < QUEUE_LENGTH && i < |imuQueue| && sample == imuQueue[i]
      requires Filled(imuQueue, i)
      modifies imuTime, imuRotX, imuRotY, imuRotZ
      ensures Filled(imuQueue, i + 1)
    {
      hide Holds;
      var timeDiff := 0.0;
      if i > 0 {
        assert imuTime[i - 1] == imuTime[..i][i - 1] == imuQueue[i - 1].stamp;
        timeDiff := sample.stamp - imuTime[i - 1];
      }
      StoreAxis(imuRotX, i, sample.rate.x, timeDiff, imuQueue, RatesX(imuQueue));
      StoreAxis(imuRotY, i, sample.rate.y, timeDiff, imuQueue, RatesY(imuQueue));
      StoreAxis(imuRotZ, i, sample.rate.z, timeDiff, imuQueue, RatesZ(imuQueue));
      ghost var before := imuTime[..i];
      imuTime[i] := sample.stamp;
      assert imuTime[..i] == before;
      assert imuTime[..i + 1] == imuTime[..i] + [sample.stamp];
    }

    /** The rotation at a point time. With strictly increasing stamps it is the integral of
        the rates. */
    method FindRotation(pointTime: real, ghost q: seq<Imu>) returns (rot: Vec3)
      requires Valid() && 1 <= imuPointerCur < QUEUE_LENGTH && imuPointerCur < |q| && Filled(q, imuPointerCur + 1)
      requires Increasing(q)
      ensures rot == Vec3(
        Angle(Stamps(q), RatesX(q), imuPointerCur + 1, pointTime),
        Angle(Stamps(q), RatesY(q), imuPointerCur + 1, pointTime),
        Angle(Stamps(q), RatesZ(q), imuPointerCur + 1, pointTime))
    {
      hide Holds;
      hide Angle;
      hide Increasing;
      var front := 0;
      assert forall k :: 0 <= k <= imuPointerCur ==> imuTime[k] == q[k].stamp by {
        assert forall k :: 0 <= k <= imuPointerCur ==> imuTime[k] == imuTime[..imuPointerCur + 1][k];
      }
      while front < imuPointerCur
        invariant 0 <= front <= imuPointerCur
        invariant front > 0 ==> q[front - 1].stamp <= pointTime
      {
        if pointTime < imuTime[front] { break; }
        front := front + 1;
      }
      if pointTime > imuTime[front] || front == 0 {
        rot := Vec3(imuRotX[front], imuRotY[front], imuRotZ[front]);
        LookupAtEnd(q, RatesX(q), imuRotX[..], imuPointerCur + 1, front, pointTime);
        LookupAtEnd(q, RatesY(q), imuRotY[..], imuPointerCur + 1, front, pointTime);
        LookupAtEnd(q, RatesZ(q), imuRotZ[..], imuPointerCur + 1, front, pointTime);
      } else {
        var back := front - 1;
        var x := Blend(imuRotX[back], imuRotX[front], imuTime[back], imuTime[front], pointTime);
        var y := Blend(imuRotY[back], imuRotY[front], imuTime[back], imuTime[front], pointTime);
        var z := Blend(imuRotZ[back], imuRotZ[front], imuTime[back], imuTime[front], pointTime);
        rot := Vec3(x, y, z);
        LookupBetween(q, RatesX(q), imuRotX[..], imuPointerCur + 1, front, pointTime);
        LookupBetween(q, RatesY(q), imuRotY[..], imuPointerCur + 1, front, pointTime);
        LookupBetween(q, RatesZ(q), imuRotZ[..], imuPointerCur + 1, front, pointTime);
      }
    }
  }

  /** The attitude of the last sample not later than `t`, or `otherwise` when all are. */
  ghost predicate AttitudeAt(q: seq<Imu>, t: real, otherwise: Vec3, attitude: Vec3) {
    if forall k :: 0 <= k < |q| ==> q[k].stamp > t then attitude == otherwise
    else exists k :: 0 <= k < |q| && LastUpTo(q, t, k) && attitude == q[k].attitude
  }

  predicate LastUpTo(q: seq<Imu>, t: real, k: nat)
    requires k < |q|
  {
    q[k].stamp <= t && forall j :: k < j < |q| ==> q[j].stamp > t
  }

  lemma NoAttitude(t: real, otherwise: Vec3)
    ensures AttitudeAt([], t, otherwise, otherwise)
  {}

  lemma AttitudeNext(q: seq<Imu>, i: nat, t: real, otherwise: Vec3, before: Vec3, after: Vec3)
    requires i < |q| && AttitudeAt(q[..i], t, otherwise, before)
    requires after == if q[i].stamp <= t then q[i].attitude else before
    ensures AttitudeAt(q[..i + 1], t, otherwise, after)
  {
    var a, b := q[..i], q[..i + 1];
    assert b == a + [q[i]];
    if q[i].stamp <= t {
      assert LastUpTo(b, t, i);
    } else if k :| 0 <= k < |a| && LastUpTo(a, t, k) && before == a[k].attitude {
      assert LastUpTo(b, t, k);
    }
  }

  predicate Increasing(q: seq<Imu>) {
    forall a, b :: 0 <= a < b < |q| ==> q[a].stamp < q[b].stamp
  }

  lemma IncreasingNext(q: seq<Imu>, k: nat)
    requires Increasing(q) && k + 1 < |q|
    ensures q[k].stamp < q[k + 1].stamp
  {}

  /** The weighted mean of the two neighbouring rows; equal stamps would divide by zero. */
  function Blend(r0: real, r1: real, t0: real, t1: real, t: real): real {
    if t0 == t1 then 0.0
    else
      var ratioFront := (t - t0) / (t1 - t0);
      var ratioBack := (t1 - t) / (t1 - t0);
      r1 * ratioFront + r0 * ratioBack
  }

  lemma HoldsNext(before: seq<real>, rot: seq<real>, q: seq<Imu>, ws: seq<real>, i: nat)
    requires i < |q| == |ws| && i < |rot| == |before| && Holds(before, q, ws, i)
    requires forall k :: 0 <= k < i ==> rot[k] == before[k]
    requires rot[i] == if i == 0 then 0.0 else before[i - 1] + ws[i] * (q[i].stamp - q[i - 1].stamp)
    ensures Holds(rot, q, ws, i + 1)
  {}

  lemma TableOf(q: seq<Imu>, ws: seq<real>)
    requires |ws| == |q| > 0 && Increasing(q)
    ensures Table(Stamps(q), ws)
  {}

  lemma LookupAtEnd(q: seq<Imu>, ws: seq<real>, rot: seq<real>, n: nat, front: nat, t: real)
    requires |ws| == |q| && 0 < n <= |q| && front < n <= |rot| && Increasing(q) && Holds(rot, q, ws, n)
    requires (front == 0 && t <= q[0].stamp) || (front == n - 1 && t > q[front].stamp)
    ensures rot[front] == Angle(Stamps(q), ws, n, t)
  {
    TableOf(q, ws);
    AngleClamps(Stamps(q), ws, n, t);
  }

  lemma LookupBetween(q: seq<Imu>, ws: seq<real>, rot: seq<real>, n: nat, front: nat, t: real)
    requires |ws| == |q| && 0 < front < n <= |q| && n <= |rot| && Increasing(q) && Holds(rot, q, ws, n)
    requires q[front - 1].stamp <= t <= q[front].stamp
    ensures Blend(rot[front - 1], rot[front], q[front - 1].stamp, q[front].stamp, t) == Angle(Stamps(q), ws, n, t)
  {
    var ts := Stamps(q);
    TableOf(q, ws);
    IncreasingNext(q, front - 1);
    CumulativeNext(ts, ws, front);
    hide Cumulative;
    hide Angle;
    hide Mul;
    hide Blend;
    BlendOf(rot[front - 1], rot[front], ws[front], ts[front - 1], ts[front], t);
    AngleUpTo(ts, ws, n, front, t);
  }

  lemma AngleUpTo(ts: seq<real>, ws: seq<real>, n: nat, k: nat, t: real)
    requires Table(ts, ws) && 0 < k < n <= |ts| && ts[k - 1] <= t <= ts[k]
    ensures Angle(ts, ws, n, t) == Cumulative(ts, ws, k - 1) + Mul(ws[k], t - ts[k - 1])
  {
    hide Angle;
    if t < ts[k] {
      AngleOnStretch(ts, ws, n, k, t);
    } else {
      AngleAtSample(ts, ws, n, k);
    }
  }

  lemma CumulativeNext(ts: seq<real>, ws: seq<real>, k: nat)
    requires 0 < k < |ts| == |ws|
    ensures Cumulative(ts, ws, k) == Cumulative(ts, ws, k - 1) + ws[k] * (ts[k] - ts[k - 1])
  {}
}
