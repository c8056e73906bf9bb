/** Splitting packets into sweeps, the `poll` of lslidar_driver.cpp: a jump of the azimuth across
    zero ends the cloud being built, which is handed off, and the rest of the packet starts the
    next. Everything before the first jump found is dropped. */
module SweepSplitter {
  import opened Basics
  import A = AngleFilter

  /** Firings in a packet. */
  const SIZE: nat := 384
  const JUMP: int := 35000

  /** Azimuth in hundredths of a degree. */
  datatype Firing = Firing(azimuth: int, distance: real, intensity: real)

  /** A firing in a cloud, with its place in the packet, which selects its ring and altitude. */
  datatype Shot = Shot(firing: Firing, index: nat)

  datatype Lidar = C32_3 | C32W | MSC16 | Other

  datatype Config = Config(
    lidar: Lidar, angleChange: bool, adjust0: int, adjust1: int, offsets: seq<real>,
    minRange: real, maxRange: real, disabled: seq<A.AngleRange>, threshold: nat)
  {
    predicate Valid() { |offsets| == 16 && disabled != [] }
  }

  predicate IsPacket(p: seq<Firing>) {
    |p| == SIZE && forall k :: 0 <= k < SIZE ==> 0 <= p[k].azimuth < A.FULL
  }

  function Uint16(x: int): int { x % 0x10000 }

  // ---------------------------------------------------------------------------
  // What becomes of one firing

  /** The correction of the c32_3. */
  function Adjust(c: Config, f: Firing, k: nat): Firing {
    if c.lidar != C32_3 then f
    else
      var sum := f.azimuth + (if k % 32 % 4 <= 1 then c.adjust1 else c.adjust0);
      var up := if sum < 0 then sum + A.FULL else sum;
      f.(azimuth := if up > A.FULL then up - A.FULL else up)
  }

  /** A correction of at most a turn moves the azimuth by just that around the circle and leaves it
      within 0 and 36000; it is below 36000, as the tables it indexes need, exactly when the sum
      is not 36000. */
  lemma AdjustedAzimuth(c: Config, f: Firing, k: nat)
    requires 0 <= f.azimuth < A.FULL && -A.FULL <= c.adjust0 <= A.FULL && -A.FULL <= c.adjust1 <= A.FULL
    requires c.lidar == C32_3
    ensures var a := Adjust(c, f, k).azimuth;
      var sum := f.azimuth + (if k % 32 % 4 <= 1 then c.adjust1 else c.adjust0);
      && (a - sum) % A.FULL == 0 && 0 <= a <= A.FULL
      && (a == A.FULL <==> sum == A.FULL)
  {}

  predicate Shifted(k: nat) { k % 32 in {29, 6, 14, 22, 30, 7, 15, 23} }

  /** The offset of the C32W and the MSC16. */
  function Offset(c: Config, f: Firing, k: nat): Firing
    requires c.Valid()
  {
    if !c.angleChange then f
    else match c.lidar
      case C32W =>
        var a := if Shifted(k) then f.azimuth + 389 else f.azimuth;
        f.(azimuth := if a >= A.FULL then a - A.FULL else a)
      case MSC16 =>
        var o := c.offsets[k % 16];
        var a := Truncate(f.azimuth as real + (if o < 0.0 then o + A.FULL as real else o));
        f.(azimuth := if a >= A.FULL then a - A.FULL else a)
      case _ => f
  }

  /** The offset turns the azimuth by 389 on eight rings of a C32W, by a ring's own angle on an
      MSC16, and never leaves the circle. */
  lemma OffsetTurns(c: Config, f: Firing, k: nat)
    requires c.Valid() && c.angleChange && 0 <= f.azimuth < A.FULL
    requires -36000.0 < c.offsets[k % 16] < 36000.0
    ensures var a := Offset(c, f, k).azimuth;
      && 0 <= a < A.FULL
      && (c.lidar == C32W ==>
            (a - (f.azimuth + (if k % 32 in {6, 7, 14, 15, 22, 23, 29, 30} then 389 else 0))) % A.FULL == 0)
      && (c.lidar == MSC16 ==> (a - (f.azimuth as real + c.offsets[k % 16]).Floor) % A.FULL == 0)
      && (c.lidar != C32W && c.lidar != MSC16 ==> a == f.azimuth)
  {
    var o := c.offsets[k % 16];
    var x := f.azimuth as real + o;
    assert (x + 36000.0).Floor == x.Floor + 36000;
    assert f.azimuth as real + (o + A.FULL as real) == x + 36000.0;
    assert Shifted(k) <==> k % 32 in {6, 7, 14, 15, 22, 23, 29, 30};
    hide Shifted;
  }

  /** In range and on no disabled arc. */
  predicate Keeps(c: Config, f: Firing)
    requires c.Valid()
  {
    c.minRange <= f.distance <= c.maxRange && A.Passes(c.disabled, f.azimuth)
  }

  function Adjusted(c: Config, p: seq<Firing>): (r: seq<Firing>)
    ensures |r| == |p|
  {
    seq(|p|, k requires 0 <= k < |p| => Adjust(c, p[k], k))
  }

  function Offsets(c: Config, p: seq<Firing>): (r: seq<Shot>)
    requires c.Valid()
    ensures |r| == |p|
  {
    seq(|p|, k requires 0 <= k < |p| => Shot(Offset(c, p[k], k), k))
  }

  /** A packet's firings as they may go to a cloud. */
  function Shots(c: Config, p: seq<Firing>): (r: seq<Shot>)
    requires c.Valid()
    ensures |r| == |p|
  {
    Offsets(c, Adjusted(c, p))
  }

  function Filtered(c: Config, shots: seq<Shot>): seq<Shot>
    requires c.Valid()
    decreases |shots|
  {
    if shots == [] then []
    else
      var last := shots[|shots| - 1];
      Filtered(c, shots[..|shots| - 1]) + (if Keeps(c, last.firing) then [last] else [])
  }

  lemma {:induction false} FilteredConcat(c: Config, a: seq<Shot>, b: seq<Shot>)
    requires c.Valid()
    ensures Filtered(c, a + b) == Filtered(c, a) + Filtered(c, b)
    decreases |b|
  {
    if b == [] {
      assert a + b == a;
    } else {
      assert (a + b)[..|a + b| - 1] == a + b[..|b| - 1];
      FilteredConcat(c, a, b[..|b| - 1]);
    }
  }

  // ---------------------------------------------------------------------------
  // One packet

  datatype State = State(
    packetNum: nat, lastAzimuth: int, isFirstSweep: bool, cloud: seq<Shot>, handed: seq<seq<Shot>>)

  const INITIAL: State := State(0, 0, true, [], [])

  /** The first jump from `k` on, or `SIZE`, and the azimuth remembered there. */
  function Scan(p: seq<Firing>, last: int, k: nat): (r: (nat, int))
    requires k <= |p|
    ensures k <= r.0 <= |p|
    decreases |p| - k
  {
    if k == |p| || Abs(p[k].azimuth - last) > JUMP then (k, last) else Scan(p, Uint16(p[k].azimuth), k + 1)
  }

  /** The jump stands between two neighbouring firings, and is the first in the packet; only at
      index 0 is the comparison with what was remembered. */
  lemma {:induction false} ScanMeaning(p: seq<Firing>, last: int, k: nat)
    requires k <= |p| && IsPacket(p)
    ensures var b := Scan(p, last, k).0;
      && (forall i :: k < i < b ==> Abs(p[i].azimuth - p[i - 1].azimuth) <= JUMP)
      && (k < b ==> Abs(p[k].azimuth - last) <= JUMP)
      && (k < b < |p| ==> Abs(p[b].azimuth - p[b - 1].azimuth) > JUMP)
      && (b == k < |p| ==> Abs(p[k].azimuth - last) > JUMP)
    decreases |p| - k
  {
    if k < |p| && Abs(p[k].azimuth - last) <= JUMP { ScanMeaning(p, Uint16(p[k].azimuth), k + 1); }
  }

  /** Where the new sweep starts in the packet; the scan waits for enough packets. */
  function Found(c: Config, st: State, p: seq<Firing>): (r: (nat, int))
    ensures r.0 <= |p|
  {
    if st.packetNum + 1 > c.threshold then Scan(p, st.lastAzimuth, 0) else (|p|, st.lastAzimuth)
  }

  /** The packet's firings go to the cloud being built up to `b` and to the next one from `b`. */
  function Placed(c: Config, st: State, p: seq<Firing>, b: nat): State
    requires c.Valid() && b <= |p| == SIZE
  {
    var shots := Shots(c, p);
    if st.isFirstSweep then st.(isFirstSweep := false, cloud := st.cloud + Filtered(c, shots[b..]))
    else
      var grown := st.cloud + Filtered(c, shots[..b]);
      if b == SIZE then st.(cloud := grown)
      else st.(handed := st.handed + [grown], cloud := Filtered(c, shots[b..]),
               lastAzimuth := Uint16(Adjusted(c, p)[SIZE - 1].azimuth))
  }

  function Poll(c: Config, st: State, p: seq<Firing>): State
    requires c.Valid() && |p| == SIZE
  {
    var (b, last) := Found(c, st, p);
    var seen := st.(packetNum := if b < SIZE then 0 else st.packetNum + 1, lastAzimuth := last);
    if st.isFirstSweep && b == SIZE then seen else Placed(c, seen, p, b)
  }

  // ---------------------------------------------------------------------------
  // Runs

  predicate Packets(ps: seq<seq<Firing>>) {
    forall i :: 0 <= i < |ps| ==> |ps[i]| == SIZE
  }

  function Run(c: Config, ps: seq<seq<Firing>>): State
    requires c.Valid() && Packets(ps)
    decreases |ps|
  {
    if ps == [] then INITIAL else Poll(c, Run(c, ps[..|ps| - 1]), ps[|ps| - 1])
  }

  /** All firings of a run in order. */
  function Stream(c: Config, ps: seq<seq<Firing>>): (r: seq<Shot>)
    requires c.Valid() && Packets(ps)
    ensures |r| == SIZE * |ps|
    decreases |ps|
  {
    if ps == [] then [] else Stream(c, ps[..|ps| - 1]) + Shots(c, ps[|ps| - 1])
  }

  /** The places in the stream where a sweep is found to start. */
  function Starts(c: Config, ps: seq<seq<Firing>>): seq<nat>
    requires c.Valid() && Packets(ps)
    decreases |ps|
  {
    if ps == [] then []
    else
      var front := ps[..|ps| - 1];
      var b := Found(c, Run(c, front), ps[|ps| - 1]).0;
      Starts(c, front) + (if b < SIZE then [SIZE * |front| + b] else [])
  }

  /** The starts go upwards inside the stream, and after each one the scan rests for `threshold`
      packets. */
  predicate Spread(c: Config, starts: seq<nat>, n: nat) {
    && (forall i :: 0 <= i < |starts| ==> starts[i] < SIZE * n)
    && (forall i :: 0 < i < |starts| ==> starts[i - 1] < starts[i] && starts[i - 1] / SIZE + c.threshold < starts[i] / SIZE)
  }

  predicate Ascending(starts: seq<nat>, n: nat) {
    && (forall i :: 0 <= i < |starts| ==> starts[i] <= n)
    && (forall i :: 0 < i < |starts| ==> starts[i - 1] <= starts[i])
  }

  /** The clouds handed off are the kept firings from one start to the next, and the cloud being
      built those since the last start. */
  predicate Split(c: Config, starts: seq<nat>, stream: seq<Shot>, handed: seq<seq<Shot>>, cloud: seq<Shot>)
    requires c.Valid()
  {
    && Ascending(starts, |stream|)
    && if starts == [] then handed == [] && cloud == []
       else (
         && |handed| == |starts| - 1
         && (forall i :: 0 <= i < |handed| ==> handed[i] == Filtered(c, stream[starts[i]..starts[i + 1]]))
         && cloud == Filtered(c, stream[starts[|starts| - 1]..]))
  }

  predicate Counts(c: Config, st: State, starts: seq<nat>, n: nat) {
    && (st.isFirstSweep <==> starts == [])
    && (starts == [] ==> st.packetNum == n)
    && (starts != [] ==> st.packetNum + 1 == n - starts[|starts| - 1] / SIZE)
  }

  lemma StartsSpread(c: Config, st: State, starts: seq<nat>, n: nat, p: seq<Firing>)
    requires c.Valid() && |p| == SIZE && Spread(c, starts, n) && Counts(c, st, starts, n)
    ensures var b := Found(c, st, p).0;
      var more := starts + (if b < SIZE then [SIZE * n + b] else []);
      Spread(c, more, n + 1) && Counts(c, Poll(c, st, p), more, n + 1)
  {
    var b := Found(c, st, p).0;
    hide Shots;
    hide Filtered;
    hide Adjusted;
    if b < SIZE { assert (SIZE * n + b) / SIZE == n; }
    if starts != [] { assert starts[|starts| - 1] / SIZE < n; }
  }

  lemma SplitGrows(c: Config, starts: seq<nat>, stream: seq<Shot>, handed: seq<seq<Shot>>, cloud: seq<Shot>, more: seq<Shot>)
    requires c.Valid() && starts != []
    requires Split(c, starts, stream, handed, cloud)
    ensures Split(c, starts, stream + more, handed, cloud + Filtered(c, more))
  {
    hide Filtered;
    var last := starts[|starts| - 1];
    assert (stream + more)[last..] == stream[last..] + more;
    FilteredConcat(c, stream[last..], more);
    forall i | 0 <= i < |handed| ensures handed[i] == Filtered(c, (stream + more)[starts[i]..starts[i + 1]]) {
      SameSlice(stream, more, starts[i], starts[i + 1]);
    }
  }

  lemma SameSlice(stream: seq<Shot>, more: seq<Shot>, i: nat, j: nat)
    requires i <= j <= |stream|
    ensures (stream + more)[i..j] == stream[i..j]
  {}

  /** A cloud is handed off at the end of the stream. */
  lemma SplitEnds(c: Config, starts: seq<nat>, stream: seq<Shot>, handed: seq<seq<Shot>>, cloud: seq<Shot>)
    requires c.Valid() && starts != []
    requires Split(c, starts, stream, handed, cloud)
    ensures Split(c, starts + [|stream|], stream, handed + [cloud], [])
  {
    var n := |stream|;
    assert stream[n..] == [] && stream[starts[|starts| - 1]..n] == stream[starts[|starts| - 1]..];
  }

  /** The state after `n` packets fits the starts found in the stream. */
  predicate Tracks(c: Config, st: State, starts: seq<nat>, stream: seq<Shot>, n: nat)
    requires c.Valid()
  {
    && |stream| == SIZE * n && Spread(c, starts, n) && Counts(c, st, starts, n)
    && Split(c, starts, stream, st.handed, st.cloud)
  }

  lemma PollSplits(c: Config, st: State, starts: seq<nat>, stream: seq<Shot>, n: nat, p: seq<Firing>)
    requires c.Valid() && |p| == SIZE && Tracks(c, st, starts, stream, n)
    ensures var b := Found(c, st, p).0;
      var more := starts + (if b < SIZE then [SIZE * n + b] else []);
      Split(c, more, stream + Shots(c, p), Poll(c, st, p).handed, Poll(c, st, p).cloud)
  {
    hide Found;
    hide Filtered;
    hide Adjusted;
    hide Shots;
    hide Split;
    hide Spread;
    var b := Found(c, st, p).0;
    var shots := Shots(c, p);
    var grown := st.cloud + Filtered(c, shots[..b]);
    if starts == [] {
      NoStart(c, stream, st.handed, st.cloud);
      FirstStart(c, stream, shots, b);
      assert starts + [SIZE * n + b] == [|stream| + b];
    } else if b == SIZE {
      assert shots[..b] == shots && starts + [] == starts;
      SplitGrows(c, starts, stream, st.handed, st.cloud, shots);
    } else {
      SplitGrows(c, starts, stream, st.handed, st.cloud, shots[..b]);
      SplitEnds(c, starts, stream + shots[..b], st.handed, grown);
      SplitGrows(c, starts + [SIZE * n + b], stream + shots[..b], st.handed + [grown], [], shots[b..]);
      assert stream + shots[..b] + shots[b..] == stream + shots;
      assert [] + Filtered(c, shots[b..]) == Filtered(c, shots[b..]);
    }
  }

  /** Before the first start nothing is handed off or kept. */
  lemma NoStart(c: Config, stream: seq<Shot>, handed: seq<seq<Shot>>, cloud: seq<Shot>)
    requires c.Valid() && Split(c, [], stream, handed, cloud)
    ensures handed == [] && cloud == []
  {}

  lemma FirstStart(c: Config, stream: seq<Shot>, shots: seq<Shot>, b: nat)
    requires c.Valid() && b <= |shots|
    ensures Split(c, [], stream + shots, [], [])
    ensures Split(c, [|stream| + b], stream + shots, [], [] + Filtered(c, shots[b..]))
  {
    hide Filtered;
    assert (stream + shots)[|stream| + b..] == shots[b..];
  }

  lemma PollTracks(c: Config, st: State, starts: seq<nat>, stream: seq<Shot>, n: nat, p: seq<Firing>)
    requires c.Valid() && |p| == SIZE && Tracks(c, st, starts, stream, n)
    ensures var b := Found(c, st, p).0;
      Tracks(c, Poll(c, st, p), starts + (if b < SIZE then [SIZE * n + b] else []), stream + Shots(c, p), n + 1)
  {
    hide Split;
    hide Counts;
    hide Poll;
    hide Found;
    hide Shots;
    hide Spread;
    StartsSpread(c, st, starts, n, p);
    PollSplits(c, st, starts, stream, n, p);
  }

  lemma NothingTracks(c: Config)
    requires c.Valid()
    ensures Tracks(c, INITIAL, [], [], 0)
  {}

  lemma {:induction false} RunTracks(c: Config, ps: seq<seq<Firing>>)
    requires c.Valid() && Packets(ps)
    ensures Tracks(c, Run(c, ps), Starts(c, ps), Stream(c, ps), |ps|)
    decreases |ps|
  {
    hide Tracks;
    hide Poll;
    hide Found;
    hide Shots;
    if ps == [] {
      NothingTracks(c);
    } else {
      RunUnfolds(c, ps);
      hide Run;
      hide Starts;
      hide Stream;
      var front, p := ps[..|ps| - 1], ps[|ps| - 1];
      RunTracks(c, front);
      PollTracks(c, Run(c, front), Starts(c, front), Stream(c, front), |front|, p);
    }
  }

  lemma RunUnfolds(c: Config, ps: seq<seq<Firing>>)
    requires c.Valid() && Packets(ps) && ps != []
    ensures var front, p := ps[..|ps| - 1], ps[|ps| - 1];
      var b := Found(c, Run(c, front), p).0;
      && Run(c, ps) == Poll(c, Run(c, front), p) && Stream(c, ps) == Stream(c, front) + Shots(c, p)
      && Starts(c, ps) == Starts(c, front) + (if b < SIZE then [SIZE * |front| + b] else [])
  {
    hide Poll;
    hide Found;
    hide Shots;
  }

  lemma {:induction false} PiecesJoin(c: Config, starts: seq<nat>, stream: seq<Shot>, handed: seq<seq<Shot>>)
    requires c.Valid() && |starts| == |handed| + 1 && Ascending(starts, |stream|)
    requires forall i :: 0 <= i < |handed| ==> handed[i] == Filtered(c, stream[starts[i]..starts[i + 1]])
    ensures starts[0] <= starts[|handed|] && Flatten(handed) == Filtered(c, stream[starts[0]..starts[|handed|]])
    decreases |handed|
  {
    if handed == [] {
      assert stream[starts[0]..starts[0]] == [];
    } else {
      var n := |handed| - 1;
      PiecesJoin(c, starts[..n + 1], stream, handed[..n]);
      FilteredConcat(c, stream[starts[0]..starts[n]], stream[starts[n]..starts[n + 1]]);
      assert stream[starts[0]..starts[n]] + stream[starts[n]..starts[n + 1]] == stream[starts[0]..starts[n + 1]];
    }
  }

  /** Conservation: over any run the clouds handed off, then the cloud being built, are all
      firings from the first start found that pass the filters, in order, each once. */
  lemma {:induction false} NothingIsLost(c: Config, ps: seq<seq<Firing>>)
    requires c.Valid() && Packets(ps)
    ensures var st, starts := Run(c, ps), Starts(c, ps);
      if starts == [] then st.handed == [] && st.cloud == []
      else (
        && starts[0] <= |Stream(c, ps)|
        && Flatten(st.handed) + st.cloud == Filtered(c, Stream(c, ps)[starts[0]..]))
  {
    RunTracks(c, ps);
    var st := Run(c, ps);
    hide Filtered;
    hide Stream;
    hide Run;
    hide Starts;
    hide Flatten;
    hide Split;
    hide Spread;
    if Starts(c, ps) == [] {
      NoStart(c, Stream(c, ps), st.handed, st.cloud);
    } else {
      SplitJoins(c, Starts(c, ps), Stream(c, ps), st.handed, st.cloud);
    }
  }

  lemma SplitJoins(c: Config, starts: seq<nat>, stream: seq<Shot>, handed: seq<seq<Shot>>, cloud: seq<Shot>)
    requires c.Valid() && starts != [] && Split(c, starts, stream, handed, cloud)
    ensures starts[0] <= |stream| && Flatten(handed) + cloud == Filtered(c, stream[starts[0]..])
  {
    hide Filtered;
    hide Flatten;
    PiecesJoin(c, starts, stream, handed);
    var last := starts[|starts| - 1];
    FilteredConcat(c, stream[starts[0]..last], stream[last..]);
    assert stream[starts[0]..last] + stream[last..] == stream[starts[0]..];
  }

  /** Each sweep handed off goes from one start to the next: exactly the kept firings between
      them, more than `threshold` packets apart. */
  lemma SweepsAreBetweenStarts(c: Config, ps: seq<seq<Firing>>, i: nat)
    requires c.Valid() && Packets(ps) && i < |Run(c, ps).handed|
    ensures var starts := Starts(c, ps);
      && i + 1 < |starts| && starts[i] < starts[i + 1] <= |Stream(c, ps)|
      && starts[i + 1] / SIZE - starts[i] / SIZE > c.threshold
      && Run(c, ps).handed[i] == Filtered(c, Stream(c, ps)[starts[i]..starts[i + 1]])
  {
    RunTracks(c, ps);
    hide Filtered;
    hide Stream;
    hide Run;
    hide Starts;
  }

  // ---------------------------------------------------------------------------
  // Where the starts are

  predicate AllPackets(ps: seq<seq<Firing>>) {
    forall i :: 0 <= i < |ps| ==> IsPacket(ps[i])
  }

  /** The scan looks at packet `m`: more than `threshold` packets came since the last start, or
      since the first packet when there is none. */
  predicate Rested(starts: seq<nat>, m: nat, threshold: nat) {
    if starts == [] then m + 1 > threshold else m - starts[|starts| - 1] / SIZE > threshold
  }

  /** Two neighbouring firings whose azimuths lie more than 35000 apart. */
  predicate JumpAt(p: seq<Firing>, i: nat)
    requires i < |p|
  {
    i > 0 && Abs(p[i].azimuth - p[i - 1].azimuth) > 35000
  }

  /** The azimuth the first firing of the packet after `ps` is compared with: the last one of the
      latest packet scanned, or that of the firing before the very first start; the last one after
      its correction when a later start was found there. */
  function Memory(c: Config, ps: seq<seq<Firing>>): int
    requires c.Valid() && Packets(ps)
    decreases |ps|
  {
    if ps == [] then 0
    else
      var front, p := ps[..|ps| - 1], ps[|ps| - 1];
      var before, now := Starts(c, front), Starts(c, ps);
      if !Rested(before, |front|, c.threshold) then Memory(c, front)
      else if now == before then p[SIZE - 1].azimuth
      else if before != [] then Uint16(Adjust(c, p[SIZE - 1], SIZE - 1).azimuth)
      else if now != [] && SIZE * |front| < now[0] < SIZE * |ps| then p[now[0] - SIZE * |front| - 1].azimuth
      else Memory(c, front)
  }

  lemma {:induction false} ScanRemembers(p: seq<Firing>, last: int, k: nat)
    requires k <= |p| && IsPacket(p)
    ensures var (b, seen) := Scan(p, last, k);
      seen == if b == k then last else p[b - 1].azimuth
    decreases |p| - k
  {
    if k < |p| && Abs(p[k].azimuth - last) <= JUMP { ScanRemembers(p, Uint16(p[k].azimuth), k + 1); }
  }

  lemma RestedCounts(c: Config, st: State, starts: seq<nat>, n: nat)
    requires Counts(c, st, starts, n)
    ensures Rested(starts, n, c.threshold) <==> st.packetNum + 1 > c.threshold
  {}

  /** What one packet does to the azimuth remembered. */
  lemma PollRemembers(c: Config, st: State, p: seq<Firing>)
    requires c.Valid() && IsPacket(p)
    ensures var b := Found(c, st, p).0;
      Poll(c, st, p).lastAzimuth ==
        if st.packetNum + 1 <= c.threshold then st.lastAzimuth
        else if b == SIZE then p[SIZE - 1].azimuth
        else if !st.isFirstSweep then Uint16(Adjust(c, p[SIZE - 1], SIZE - 1).azimuth)
        else if b > 0 then p[b - 1].azimuth
        else st.lastAzimuth
  {
    ScanRemembers(p, st.lastAzimuth, 0);
    hide Scan;
    hide Adjust;
    hide Shots;
    hide Filtered;
  }

  lemma {:induction false} LastAzimuthIsMemory(c: Config, ps: seq<seq<Firing>>)
    requires c.Valid() && Packets(ps) && AllPackets(ps)
    ensures Run(c, ps).lastAzimuth == Memory(c, ps)
    decreases |ps|
  {
    hide Poll;
    hide Found;
    hide Adjust;
    hide IsPacket;
    hide Stream;
    hide Tracks;
    if ps != [] {
      var front, p := ps[..|ps| - 1], ps[|ps| - 1];
      LastAzimuthIsMemory(c, front);
      RunUnfolds(c, ps);
      RunTracks(c, front);
      TracksCounts(c, Run(c, front), Starts(c, front), Stream(c, front), |front|);
      RestedCounts(c, Run(c, front), Starts(c, front), |front|);
      PollRemembers(c, Run(c, front), p);
      hide Run;
      hide Starts;
      NewStart(Starts(c, front), Starts(c, ps), Found(c, Run(c, front), p).0, |front|);
    }
  }

  lemma TracksCounts(c: Config, st: State, starts: seq<nat>, stream: seq<Shot>, n: nat)
    requires c.Valid() && Tracks(c, st, starts, stream, n)
    ensures Counts(c, st, starts, n) && (st.isFirstSweep <==> starts == [])
  {}

  lemma NewStart(before: seq<nat>, now: seq<nat>, b: nat, m: nat)
    requires b <= SIZE && now == before + (if b < SIZE then [SIZE * m + b] else [])
    ensures now == before <==> b == SIZE
    ensures before == [] && b < SIZE ==> now[0] == SIZE * m + b
  {}

  /** The first position from which the packet is cut. */
  predicate FirstJump(p: seq<Firing>, remembered: int, b: nat)
    requires |p| == SIZE
  {
    && b < SIZE
    && (if b == 0 then Abs(p[0].azimuth - remembered) > 35000 else JumpAt(p, b) && Abs(p[0].azimuth - remembered) <= 35000)
    && forall i :: 0 <= i < b ==> !JumpAt(p, i)
  }

  lemma ScanIsFirstJump(p: seq<Firing>, last: int)
    requires IsPacket(p)
    ensures var b := Scan(p, last, 0).0;
      && (b < SIZE ==> FirstJump(p, last, b))
      && (b == SIZE ==> Abs(p[0].azimuth - last) <= 35000 && forall i :: 0 <= i < SIZE ==> !JumpAt(p, i))
  {
    ScanMeaning(p, last, 0);
    hide Scan;
  }

  /** A packet brings at most one start. It brings none while the scan rests; when it does not rest,
      the start is at the first jump of more than 35000 between two neighbouring firings, the first
      firing of the packet being compared with what is remembered, and there is none if and only if
      there is no such jump. */
  lemma StartsAreJumps(c: Config, ps: seq<seq<Firing>>)
    requires c.Valid() && Packets(ps) && AllPackets(ps) && ps != []
    ensures var front, p := ps[..|ps| - 1], ps[|ps| - 1];
      var before, now, m := Starts(c, front), Starts(c, ps), |front|;
      if now == before then
        Rested(before, m, c.threshold) ==>
          Abs(p[0].azimuth - Memory(c, front)) <= 35000 && forall i :: 0 <= i < SIZE ==> !JumpAt(p, i)
      else
        && Rested(before, m, c.threshold)
        && |now| == |before| + 1 && now[..|before|] == before
        && var b := now[|before|] - SIZE * m; 0 <= b && FirstJump(p, Memory(c, front), b)
  {
    hide IsPacket;
    hide Stream;
    hide Tracks;
    hide Scan;
    hide Poll;
    hide JumpAt;
    hide FirstJump;
    var front, p := ps[..|ps| - 1], ps[|ps| - 1];
    RunUnfolds(c, ps);
    RunTracks(c, front);
    TracksCounts(c, Run(c, front), Starts(c, front), Stream(c, front), |front|);
    RestedCounts(c, Run(c, front), Starts(c, front), |front|);
    LastAzimuthIsMemory(c, front);
    ScanIsFirstJump(p, Run(c, front).lastAzimuth);
    NewStart(Starts(c, front), Starts(c, ps), Found(c, Run(c, front), p).0, |front|);
    hide Run;
    hide Starts;
    hide Memory;
    hide Rested;
  }

  lemma {:induction false} StartsGrow(c: Config, ps: seq<seq<Firing>>, m: nat)
    requires c.Valid() && Packets(ps) && m <= |ps|
    ensures Starts(c, ps[..m]) <= Starts(c, ps)
    ensures forall i :: |Starts(c, ps[..m])| <= i < |Starts(c, ps)| ==> Starts(c, ps)[i] >= SIZE * m
    decreases |ps| - m
  {
    hide Found;
    hide Poll;
    if m < |ps| {
      StartsGrow(c, ps, m + 1);
      assert ps[..m + 1][..m] == ps[..m];
    } else {
      assert ps[..m] == ps;
    }
  }

  /** No jump is missed: when more than `threshold` packets have passed since the last start, or
      since the beginning, and two neighbouring firings of packet `m` lie more than 35000 apart, a
      sweep starts in packet `m`, at them or before. */
  lemma JumpsAreFound(c: Config, ps: seq<seq<Firing>>, m: nat, i: nat)
    requires c.Valid() && Packets(ps) && AllPackets(ps) && m < |ps| && 0 < i < SIZE
    requires Abs(ps[m][i].azimuth - ps[m][i - 1].azimuth) > 35000
    requires var before := Starts(c, ps[..m]);
      if before == [] then m + 1 > c.threshold else m - before[|before| - 1] / SIZE > c.threshold
    ensures exists s :: s in Starts(c, ps) && SIZE * m <= s <= SIZE * m + i
  {
    hide Starts;
    hide Memory;
    hide IsPacket;
    hide FirstJump;
    var upto := ps[..m + 1];
    assert upto[..|upto| - 1] == ps[..m] && upto[|upto| - 1] == ps[m];
    StartsAreJumps(c, upto);
    StartsGrow(c, ps, m + 1);
    assert JumpAt(ps[m], i);
    var before, now := Starts(c, ps[..m]), Starts(c, upto);
    assert now != before;
    NoJumpBefore(ps[m], Memory(c, ps[..m]), now[|before|] - SIZE * m, i);
    assert now[|before|] in Starts(c, ps);
  }

  lemma NoJumpBefore(p: seq<Firing>, remembered: int, b: nat, i: nat)
    requires |p| == SIZE && FirstJump(p, remembered, b) && i < SIZE && JumpAt(p, i)
    ensures b <= i
  {}

  /** What is kept of a stretch of firings is exactly what lies in range and on no disabled arc. */
  lemma {:induction false} FilteredMeaning(c: Config, shots: seq<Shot>, x: Shot)
    requires c.Valid()
    ensures x in Filtered(c, shots) <==>
      && x in shots && c.minRange <= x.firing.distance <= c.maxRange
      && (c.disabled[0] == A.AngleRange(0, 0)
          || forall k :: 0 <= k < |c.disabled| ==>
               !(c.disabled[k].start <= x.firing.azimuth < c.disabled[k].end))
    decreases |shots|
  {
    if shots != [] { FilteredMeaning(c, shots[..|shots| - 1], x); }
  }

  // ---------------------------------------------------------------------------
  // The driver as an object

  lemma SameOffsets(c: Config, p: seq<Firing>, q: seq<Firing>, b: nat)
    requires c.Valid() && |p| == |q| && b <= |p| && p[b..] == q[b..]
    ensures Offsets(c, p)[b..] == Offsets(c, q)[b..]
  {
    forall k | b <= k < |p| ensures Offsets(c, p)[k] == Offsets(c, q)[k] {
      assert p[b..][k - b] == q[b..][k - b];
    }
  }

  lemma ScanStep(p: seq<Firing>, last: int, k: nat)
    requires k < |p|
    ensures Scan(p, last, k) == if Abs(p[k].azimuth - last) > JUMP then (k, last) else Scan(p, Uint16(p[k].azimuth), k + 1)
  {}

  class Driver {
    const config: Config
    const firings: array<Firing>
    var packetNum: nat
    var lastAzimuth: int
    var isFirstSweep: bool
    var cloud: seq<Shot>
    var handed: seq<seq<Shot>>

    ghost function Now(): State
      reads this
    {
      State(packetNum, lastAzimuth, isFirstSweep, cloud, handed)
    }

    predicate Valid() { config.Valid() && firings.Length == SIZE }

    constructor (config: Config)
      requires config.Valid()
      ensures Valid() && Now() == INITIAL && this.config == config && fresh(firings)
    {
      this.config := config;
      firings := new Firing[SIZE](_ => Firing(0, 0.0, 0.0));
      packetNum, lastAzimuth, isFirstSweep, cloud, handed := 0, 0, true, [], [];
    }

    method Decode(p: seq<Firing>)
      requires Valid() && |p| == SIZE
      modifies firings
      ensures firings[..] == p
    {
      for k := 0 to SIZE
        invariant forall i :: 0 <= i < k ==> firings[i] == p[i]
      {
        firings[k] := p[k];
      }
    }

    /** The first jump among the firings; every firing before it is remembered in turn. */
    method FindBoundary() returns (newSweepStart: nat)
      requires Valid()
      modifies this`packetNum, this`lastAzimuth
      ensures var r := Scan(firings[..], old(lastAzimuth), 0);
        && (newSweepStart, lastAzimuth) == r
        && packetNum == if newSweepStart < SIZE then 0 else old(packetNum)
    {
      newSweepStart := 0;
      while newSweepStart < SIZE
        invariant newSweepStart <= SIZE && packetNum == old(packetNum)
        invariant Scan(firings[..], old(lastAzimuth), 0) == Scan(firings[..], lastAzimuth, newSweepStart)
      {
        ScanStep(firings[..], lastAzimuth, newSweepStart);
        if Abs(firings[newSweepStart].azimuth - lastAzimuth) > JUMP {
          packetNum := 0;
          break;
        }
        lastAzimuth := Uint16(firings[newSweepStart].azimuth);
        newSweepStart := newSweepStart + 1;
      }
    }

    method AdjustAzimuths()
      requires Valid()
      modifies firings
      ensures firings[..] == Adjusted(config, old(firings[..]))
    {
      if config.lidar != C32_3 {
        assert Adjusted(config, firings[..]) == firings[..];
        return;
      }
      for k := 0 to SIZE
        invariant forall i :: 0 <= i < k ==> firings[i] == Adjust(config, old(firings[i]), i)
        invariant forall i :: k <= i < SIZE ==> firings[i] == old(firings[i])
      {
        var azimuth := firings[k].azimuth + if k % 32 % 4 <= 1 then config.adjust1 else config.adjust0;
        if azimuth < 0 { azimuth := azimuth + A.FULL; }
        if azimuth > A.FULL { azimuth := azimuth - A.FULL; }
        firings[k] := firings[k].(azimuth := azimuth);
      }
      assert firings[..] == Adjusted(config, old(firings[..]));
    }

    method OffsetAzimuth(k: nat)
      requires Valid() && k < SIZE
      modifies firings
      ensures firings[..] == old(firings[..])[k := Offset(config, old(firings[k]), k)]
    {
      firings[k] := Offset(config, firings[k], k);
    }

    /** Offsets the firings from `start` up to `end` in place and adds those that pass. */
    method AddFirings(start: nat, end: nat)
      requires Valid() && start <= end <= SIZE
      modifies firings, this`cloud
      ensures forall k :: 0 <= k < start || end <= k < SIZE ==> firings[k] == old(firings[k])
      ensures cloud == old(cloud) + Filtered(config, Offsets(config, old(firings[..]))[start..end])
    {
      ghost var shots := Offsets(config, firings[..]);
      for k := start to end
        invariant forall i :: 0 <= i < start || k <= i < SIZE ==> firings[i] == old(firings[i])
        invariant cloud == old(cloud) + Filtered(config, shots[start..k])
      {
        OffsetAzimuth(k);
        assert Shot(firings[k], k) == shots[k];
        assert shots[start..k + 1][..k - start] == shots[start..k];
        hide Offset;
        if config.minRange <= firings[k].distance <= config.maxRange {
          var outside := A.IsSkipAngle(config.disabled, firings[k].azimuth);
          if config.disabled[0] == A.NOTHING || outside { cloud := cloud + [Shot(firings[k], k)]; }
        }
      }
    }

    /** The cloud being built is handed off, and the rest of the packet starts the next. */
    method HandOff(newSweepStart: nat)
      requires Valid() && newSweepStart < SIZE
      modifies this`cloud, this`handed, this`lastAzimuth, firings
      ensures handed == old(handed) + [old(cloud)] && lastAzimuth == Uint16(old(firings[SIZE - 1].azimuth))
      ensures cloud == Filtered(config, Offsets(config, old(firings[..]))[newSweepStart..])
    {
      handed := handed + [cloud];
      cloud := [];
      lastAzimuth := Uint16(firings[SIZE - 1].azimuth);
      ghost var shots := Offsets(config, firings[..]);
      assert shots[newSweepStart..SIZE] == shots[newSweepStart..];
      AddFirings(newSweepStart, SIZE);
      assert cloud == Filtered(config, shots[newSweepStart..]);
    }

    /** The firings of a packet go to the cloud being built and, from a start on, to the next. */
    method AddSweeps(newSweepStart: nat, ghost p: seq<Firing>)
      requires Valid() && newSweepStart <= SIZE == |p| && firings[..] == Adjusted(config, p)
      requires isFirstSweep ==> newSweepStart < SIZE
      modifies this, firings
      ensures Now() == Placed(config, old(Now()), p, newSweepStart)
    {
      ghost var shots := Shots(config, p);
      hide Filtered;
      hide Adjusted;
      assert shots[newSweepStart..SIZE] == shots[newSweepStart..] && shots[0..newSweepStart] == shots[..newSweepStart];
      if isFirstSweep {
        isFirstSweep := false;
        AddFirings(newSweepStart, SIZE);
      } else {
        ghost var adjusted := firings[..];
        AddFirings(0, newSweepStart);
        if newSweepStart != SIZE {
          SameOffsets(config, adjusted, firings[..], newSweepStart);
          HandOff(newSweepStart);
        }
      }
    }

    /** One packet. */
    method PollPacket(p: seq<Firing>)
      requires Valid() && |p| == SIZE
      modifies this, firings
      ensures Valid() && Now() == Poll(config, old(Now()), p)
    {
      Decode(p);
      packetNum := packetNum + 1;
      var newSweepStart := SIZE;
      if packetNum > config.threshold { newSweepStart := FindBoundary(); }
      if isFirstSweep && newSweepStart == SIZE { return; }
      AdjustAzimuths();
      AddSweeps(newSweepStart, p);
    }
  }
}
