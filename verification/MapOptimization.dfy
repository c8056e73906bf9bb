/** The map back end of mapOptmization.cpp: key frames, the pose graph, the cache of transformed
    clouds and the path, kept by the cloud handler, and the loop-closure thread that works on a
    copy of the key poses and hands constraints over under the mutex. The handler's locked part
    and each locked or thread-local part of the loop thread is one step; a run is any
    interleaving of such steps. Here are the steps and what the handler keeps. */
module MapOptimization {
  import opened Basics

  datatype Point = Point(x: real, y: real, z: real)

  type Cloud = seq<Point>

  datatype Pose = Pose(x: real, y: real, z: real, roll: real, pitch: real, yaw: real)

  /** A key pose in three dimensions; the intensity is its index. */
  datatype KeyPoint = KeyPoint(x: real, y: real, z: real, intensity: int)

  /** A key pose in six dimensions, with index and time. */
  datatype KeyPose = KeyPose(pose: Pose, intensity: int, time: real)

  datatype PathPose = PathPose(pose: Pose, time: real)

  /** The motion that takes pose `from` to pose `to`. */
  datatype Relative = Relative(from: Pose, to: Pose)

  /** A GPS position with the variances of its axes. */
  datatype GpsMessage = GpsMessage(time: real, place: Point, noise: Vec3)

  /** A position that binds a key frame. */
  datatype Fix = Fix(key: nat, at: GpsMessage)

  datatype Factor =
    | Prior(key: nat, pose: Pose)
    | Odometry(from: nat, to: nat, between: Relative)
    | Gps(fix: Fix)
    | Loop(from: nat, to: nat, between: Relative, noise: real)

  /** The parameters; the rigid motions: a point carried with a pose, the second pose seen from
      the first, and the first applied after the second; and the filters that thin a scan. */
  datatype Config = Config(
    move: (Pose, Point) -> Point, between: (Pose, Pose) -> Pose, compose: (Pose, Pose) -> Pose,
    sampleCorner: Cloud -> Cloud, sampleSurf: Cloud -> Cloud,
    interval: real, searchRadius: real, timeDiff: real, fitness: real,
    livox: bool, addAngle: real, addDistance: real,
    useGps: bool, useElevation: bool, poseCovariance: real, gpsCovariance: real)
  {
    predicate Valid() { interval >= 0.0 && searchRadius >= 0.0 }
  }

  const CACHE_LIMIT: nat := 1000
  const LOOP_INFO_LIMIT: nat := 5
  const RECENT: real := 10.0
  const ORIGIN: Point := Point(0.0, 0.0, 0.0)

  // ---------------------------------------------------------------------------
  // The state

  /** The scan at hand and the two clocks of the handler. */
  datatype Scan = Scan(time: real, lastProcessed: real, corner: Cloud, surf: Cloud)

  datatype Frames = Frames(poses3D: seq<KeyPoint>, poses6D: seq<KeyPose>, corner: seq<Cloud>, surf: seq<Cloud>)

  /** The cache of transformed clouds and the fused map. */
  datatype Fusion = Fusion(cache: map<int, (Cloud, Cloud)>, corner: Cloud, surf: Cloud)

  datatype Graph = Graph(closed: bool, estimate: seq<Pose>, vars: set<nat>, factors: seq<Factor>)

  datatype Queues = Queues(index: seq<(nat, nat)>, pose: seq<Relative>, noise: seq<real>)

  /** The positions not looked at yet, the last one used, and the variances of the newest key
      pose along the ground. */
  datatype GpsQueue = GpsQueue(queue: seq<GpsMessage>, last: Point, covariance: (real, real))

  /** Where the loop thread stands. */
  datatype Stage =
    | Idle
    | Ready
    | Copied
    | Detected(cur: nat, pre: nat)
    | Pushed(cur: nat, pre: nat)

  /** The loop thread's own state, with the constraints it ever handed over as history. */
  datatype LoopThread = LoopThread(
    container: map<nat, nat>, info: seq<(real, real)>, copy3D: seq<KeyPoint>, copy6D: seq<KeyPose>,
    stage: Stage, pushed: seq<Factor>)

  datatype State = State(
    scan: Scan, frames: Frames, fusion: Fusion, path: seq<PathPose>, graph: Graph, queues: Queues,
    gps: GpsQueue, loops: LoopThread)

  const INITIAL: State := State(
    Scan(0.0, -1.0, [], []), Frames([], [], [], []), Fusion(map[], [], []), [], Graph(false, [], {}, []),
    Queues([], [], []), GpsQueue([], ORIGIN, (0.0, 0.0)), LoopThread(map[], [], [], [], Idle, []))

  // ---------------------------------------------------------------------------
  // The local map

  function Moved(c: Config, cloud: Cloud, pose: Pose): Cloud {
    seq(|cloud|, i requires 0 <= i < |cloud| => c.move(pose, cloud[i]))
  }

  /** A point the kd-tree and the voxel filter chose, and the key pose nearest to it. */
  datatype Near = Near(point: Point, nearest: nat)

  function Surrounding(fr: Frames, near: seq<Near>): seq<KeyPoint>
    requires forall k :: 0 <= k < |near| ==> near[k].nearest < |fr.poses3D|
  {
    seq(|near|, k requires 0 <= k < |near| =>
      KeyPoint(near[k].point.x, near[k].point.y, near[k].point.z, fr.poses3D[near[k].nearest].intensity))
  }

  /** The latest key poses below `n`, newest first, for as long as they are under ten seconds old. */
  function Recent(fr: Frames, time: real, n: nat): seq<KeyPoint>
    requires n <= |fr.poses6D| && |fr.poses3D| == |fr.poses6D|
  {
    if n > 0 && time - fr.poses6D[n - 1].time < RECENT then [fr.poses3D[n - 1]] + Recent(fr, time, n - 1)
    else []
  }

  /** They are the newest key poses below `n`, all under ten seconds old, up to the first that is
      not. */
  lemma {:induction false} RecentMeaning(fr: Frames, time: real, n: nat)
    requires n <= |fr.poses6D| && |fr.poses3D| == |fr.poses6D|
    ensures var r := Recent(fr, time, n);
      && |r| <= n
      && (forall k :: 0 <= k < |r| ==> r[k] == fr.poses3D[n - 1 - k] && time - fr.poses6D[n - 1 - k].time < RECENT)
      && (|r| < n ==> time - fr.poses6D[n - 1 - |r|].time >= RECENT)
  {
    if n > 0 && time - fr.poses6D[n - 1].time < RECENT {
      RecentMeaning(fr, time, n - 1);
      var r, rest := Recent(fr, time, n), Recent(fr, time, n - 1);
      forall k | 0 <= k < |r|
        ensures r[k] == fr.poses3D[n - 1 - k] && time - fr.poses6D[n - 1 - k].time < RECENT
      {
        if k > 0 { assert r[k] == rest[k - 1] && rest[k - 1] == fr.poses3D[n - 1 - 1 - (k - 1)]; }
      }
    }
  }

  predicate Within(p: KeyPoint, q: KeyPoint, radius: real) {
    (p.x - q.x) * (p.x - q.x) + (p.y - q.y) * (p.y - q.y) + (p.z - q.z) * (p.z - q.z) <= radius * radius
  }

  /** Every chosen point names a key frame. */
  predicate Names(fr: Frames, points: seq<KeyPoint>) {
    forall k :: 0 <= k < |points| ==> 0 <= points[k].intensity < |fr.poses6D|
  }

  predicate Shaped(fr: Frames) {
    |fr.poses3D| == |fr.poses6D| == |fr.corner| == |fr.surf|
  }

  function Clouds(c: Config, fr: Frames, k: int): (Cloud, Cloud)
    requires Shaped(fr) && 0 <= k < |fr.poses6D|
  {
    (Moved(c, fr.corner[k], fr.poses6D[k].pose), Moved(c, fr.surf[k], fr.poses6D[k].pose))
  }

  function FuseOne(c: Config, fr: Frames, f: Fusion, p: KeyPoint): Fusion
    requires Shaped(fr) && fr.poses3D != [] && 0 <= p.intensity < |fr.poses6D|
  {
    if !Within(p, fr.poses3D[|fr.poses3D| - 1], c.searchRadius) then f
    else if p.intensity in f.cache then
      Fusion(f.cache, f.corner + f.cache[p.intensity].0, f.surf + f.cache[p.intensity].1)
    else
      var clouds := Clouds(c, fr, p.intensity);
      Fusion(f.cache[p.intensity := clouds], f.corner + clouds.0, f.surf + clouds.1)
  }

  function Fuse(c: Config, fr: Frames, f: Fusion, points: seq<KeyPoint>): Fusion
    requires Shaped(fr) && fr.poses3D != [] && Names(fr, points)
    decreases |points|
  {
    if points == [] then f
    else FuseOne(c, fr, Fuse(c, fr, f, points[..|points| - 1]), points[|points| - 1])
  }

  /** The map of the chosen points near the newest key pose, built without a cache. */
  function Direct(c: Config, fr: Frames, points: seq<KeyPoint>): (Cloud, Cloud)
    requires Shaped(fr) && fr.poses3D != [] && Names(fr, points)
    decreases |points|
  {
    if points == [] then ([], [])
    else
      var front, p := Direct(c, fr, points[..|points| - 1]), points[|points| - 1];
      if !Within(p, fr.poses3D[|fr.poses3D| - 1], c.searchRadius) then front
      else (front.0 + Clouds(c, fr, p.intensity).0, front.1 + Clouds(c, fr, p.intensity).1)
  }

  function Trim(f: Fusion): Fusion {
    if |f.cache| > CACHE_LIMIT then f.(cache := map[]) else f
  }

  function Extract(c: Config, fr: Frames, f: Fusion, points: seq<KeyPoint>): Fusion
    requires Shaped(fr) && fr.poses3D != [] && Names(fr, points)
  {
    Trim(Fuse(c, fr, f.(corner := [], surf := []), points))
  }

  /** Every cached cloud is the key frame's cloud at the key frame's present pose. */
  predicate CacheOk(c: Config, fr: Frames, cache: map<int, (Cloud, Cloud)>)
    requires Shaped(fr)
  {
    forall k :: k in cache ==> 0 <= k < |fr.poses6D| && cache[k] == Clouds(c, fr, k)
  }

  /** The fused map is the one built without a cache, whatever is cached, and the cache stays right. */
  lemma {:induction false} FuseIsDirect(c: Config, fr: Frames, f: Fusion, points: seq<KeyPoint>)
    requires Shaped(fr) && fr.poses3D != [] && Names(fr, points)
    requires CacheOk(c, fr, f.cache) && f.corner == [] && f.surf == []
    ensures var r := Fuse(c, fr, f, points);
      CacheOk(c, fr, r.cache) && (r.corner, r.surf) == Direct(c, fr, points)
    decreases |points|
  {
    hide Moved;
    hide Within;
    if points != [] { FuseIsDirect(c, fr, f, points[..|points| - 1]); }
  }

  lemma ExtractIsDirect(c: Config, fr: Frames, f: Fusion, points: seq<KeyPoint>)
    requires Shaped(fr) && fr.poses3D != [] && Names(fr, points) && CacheOk(c, fr, f.cache)
    ensures var r := Extract(c, fr, f, points);
      && CacheOk(c, fr, r.cache) && |r.cache| <= CACHE_LIMIT
      && (r.corner, r.surf) == Direct(c, fr, points)
  {
    FuseIsDirect(c, fr, f.(corner := [], surf := []), points);
  }

  // ---------------------------------------------------------------------------
  // The handler

  /** What one handled scan is given from outside: the key poses near the newest one, the pose
      scan matching ends at, and the optimiser's estimate with the variances of its newest pose. */
  datatype Input = Input(near: seq<Near>, guess: Pose, estimate: seq<Pose>, covariance: (real, real))

  function PathOf(poses: seq<KeyPose>): seq<PathPose> {
    seq(|poses|, i requires 0 <= i < |poses| => PathPose(poses[i].pose, poses[i].time))
  }

  function Constraints(q: Queues): seq<Factor>
    requires |q.index| == |q.pose| == |q.noise|
  {
    seq(|q.index|, i requires 0 <= i < |q.index| => Loop(q.index[i].0, q.index[i].1, q.pose[i], q.noise[i]))
  }

  predicate Aligned(q: Queues) { |q.index| == |q.pose| == |q.noise| }

  function OdometryFactor(fr: Frames, guess: Pose): Factor
    requires Shaped(fr)
  {
    var n := |fr.poses3D|;
    if n == 0 then Prior(0, guess) else Odometry(n - 1, n, Relative(fr.poses6D[n - 1].pose, guess))
  }

  /** A vector of length under `d`. */
  predicate Shorter(x: real, y: real, z: real, d: real) { d > 0.0 && x * x + y * y + z * z < d * d }

  predicate Apart(p: Point, q: Point) { !Shorter(p.x - q.x, p.y - q.y, p.z - q.z, 5.0) }

  /** Without elevation the height is the scan's own. */
  function Placed(c: Config, m: GpsMessage, guess: Pose): GpsMessage {
    if c.useElevation then m else m.(place := m.place.(z := guess.z), noise := m.noise.(z := 0.01))
  }

  /** Quiet, not the origin that stands for no fix, and away from the last one used. */
  predicate Good(c: Config, m: GpsMessage, guess: Pose, last: Point) {
    && m.noise.x <= c.gpsCovariance && m.noise.y <= c.gpsCovariance
    && (AbsReal(m.place.x) >= 0.000001 || AbsReal(m.place.y) >= 0.000001)
    && Apart(Placed(c, m, guess).place, last)
  }

  predicate OnTime(m: real, time: real) { time - 0.2 <= m <= time + 0.2 }

  /** What is left of the queue, and the position taken from it. */
  function Search(c: Config, q: seq<GpsMessage>, time: real, guess: Pose, last: Point): (seq<GpsMessage>, Option<GpsMessage>) {
    if q == [] || q[0].time > time + 0.2 then (q, None)
    else if q[0].time >= time - 0.2 && Good(c, q[0], guess, last) then (q[1..], Some(Placed(c, q[0], guess)))
    else Search(c, q[1..], time, guess, last)
  }

  predicate Taken(c: Config, m: GpsMessage, time: real, guess: Pose, last: Point) {
    OnTime(m.time, time) && Good(c, m, guess, last)
  }

  /** The position taken is the first of the queue that is on time and good, unless one that is
      too new stands before it; all before it are dropped, and nothing else is. */
  lemma {:induction false} SearchMeaning(c: Config, q: seq<GpsMessage>, time: real, guess: Pose, last: Point)
    ensures var (rest, found) := Search(c, q, time, guess, last);
      var n := |q| - |rest|;
      && 0 <= n && rest == q[n..]
      && (forall k :: 0 <= k < n ==> q[k].time <= time + 0.2)
      && (match found
          case None => (
            && (forall k :: 0 <= k < n ==> !Taken(c, q[k], time, guess, last))
            && (rest != [] ==> rest[0].time > time + 0.2))
          case Some(m) => (
            && n > 0 && m == Placed(c, q[n - 1], guess) && Taken(c, q[n - 1], time, guess, last)
            && (forall k :: 0 <= k < n - 1 ==> !Taken(c, q[k], time, guess, last))))
  {
    hide Good;
    hide Placed;
    if q != [] && q[0].time <= time + 0.2 && !Taken(c, q[0], time, guess, last) {
      SearchMeaning(c, q[1..], time, guess, last);
      var n := |q| - |Search(c, q, time, guess, last).0|;
      assert forall k :: 0 < k < |q| ==> q[k] == q[1..][k - 1];
      assert forall k :: 0 < k < n ==> q[k].time <= time + 0.2;
    }
  }

  /** A position is looked for once the key frames have moved on and the newest is uncertain. */
  predicate Wanted(c: Config, fr: Frames, covariance: (real, real)) {
    && c.useGps && fr.poses3D != []
    && Apart(PlaceOf(fr.poses3D[0]), PlaceOf(fr.poses3D[|fr.poses3D| - 1]))
    && (covariance.0 >= c.poseCovariance || covariance.1 >= c.poseCovariance)
  }

  function PlaceOf(p: KeyPoint): Point { Point(p.x, p.y, p.z) }

  function GpsAnswer(c: Config, st: State, guess: Pose): (seq<GpsMessage>, Option<GpsMessage>) {
    if Wanted(c, st.frames, st.gps.covariance) then Search(c, st.gps.queue, st.scan.time, guess, st.gps.last)
    else (st.gps.queue, None)
  }

  function Max(a: real, b: real): real { if a < b then b else a }

  /** The optimiser gets variances of at least one. */
  function FixAt(key: nat, m: GpsMessage): Fix {
    Fix(key, m.(noise := Vec3(Max(m.noise.x, 1.0), Max(m.noise.y, 1.0), Max(m.noise.z, 1.0))))
  }

  function GpsFactors(c: Config, st: State, guess: Pose): seq<Factor> {
    var m := GpsAnswer(c, st, guess).1;
    if m.Some? then [Gps(FixAt(|st.frames.poses3D|, m.value))] else []
  }

  function AfterGps(c: Config, st: State, guess: Pose): GpsQueue {
    var (rest, m) := GpsAnswer(c, st, guess);
    st.gps.(queue := rest, last := if m.Some? then m.value.place else st.gps.last)
  }

  /** The factors a new key frame brings, the queued constraints last. */
  function NewFactors(c: Config, st: State, input: Input): seq<Factor>
    requires Shaped(st.frames) && Aligned(st.queues)
  {
    [OdometryFactor(st.frames, input.guess)] + GpsFactors(c, st, input.guess) + Constraints(st.queues)
  }

  /** Factors and variables of a new key frame go to the optimiser. */
  function Extended(c: Config, st: State, input: Input): Graph
    requires Shaped(st.frames) && Aligned(st.queues)
  {
    Graph(st.graph.closed || GpsFactors(c, st, input.guess) != [] || st.queues.index != [],
      input.estimate, st.graph.vars + {|st.frames.poses3D|}, st.graph.factors + NewFactors(c, st, input))
  }

  function AddFrame(c: Config, fr: Frames, scan: Scan, pose: Pose): Frames {
    var n := |fr.poses3D|;
    Frames(fr.poses3D + [KeyPoint(pose.x, pose.y, pose.z, n)], fr.poses6D + [KeyPose(pose, n, scan.time)],
      fr.corner + [c.sampleCorner(scan.corner)], fr.surf + [c.sampleSurf(scan.surf)])
  }

  /** Turned or moved by a threshold since the last key frame; for a LIVOX sensor also a second
      later. */
  predicate Far(c: Config, last: KeyPose, time: real, guess: Pose) {
    var d := c.between(last.pose, guess);
    || (c.livox && time - last.time > 1.0)
    || AbsReal(d.roll) >= c.addAngle || AbsReal(d.pitch) >= c.addAngle || AbsReal(d.yaw) >= c.addAngle
    || !Shorter(d.x, d.y, d.z, c.addDistance)
  }

  predicate Saves(c: Config, st: State, input: Input)
    requires Shaped(st.frames)
  {
    st.frames.poses3D == [] || Far(c, st.frames.poses6D[|st.frames.poses6D| - 1], st.scan.time, input.guess)
  }

  function Save(c: Config, st: State, input: Input): State
    requires Shaped(st.frames) && Aligned(st.queues) && input.estimate != []
  {
    var pose := input.estimate[|input.estimate| - 1];
    st.(graph := Extended(c, st, input), queues := Queues([], [], []), frames := AddFrame(c, st.frames, st.scan, pose),
        path := st.path + [PathPose(pose, st.scan.time)],
        gps := AfterGps(c, st, input.guess).(covariance := input.covariance))
  }

  function Corrected(fr: Frames, estimate: seq<Pose>): Frames
    requires Shaped(fr) && |estimate| == |fr.poses3D|
  {
    fr.(poses3D := seq(|estimate|, i requires 0 <= i < |estimate| =>
          KeyPoint(estimate[i].x, estimate[i].y, estimate[i].z, fr.poses3D[i].intensity)),
        poses6D := seq(|estimate|, i requires 0 <= i < |estimate| =>
          fr.poses6D[i].(pose := estimate[i])))
  }

  function Correct(st: State): State
    requires Shaped(st.frames) && |st.graph.estimate| == |st.frames.poses3D|
  {
    if st.frames.poses3D == [] || !st.graph.closed then st
    else
      var fr := Corrected(st.frames, st.graph.estimate);
      st.(frames := fr, fusion := st.fusion.(cache := map[]), path := PathOf(fr.poses6D),
          graph := st.graph.(closed := false))
  }

  function Chosen(st: State, near: seq<Near>): seq<KeyPoint>
    requires Shaped(st.frames)
    requires forall k :: 0 <= k < |near| ==> near[k].nearest < |st.frames.poses3D|
  {
    Surrounding(st.frames, near) + Recent(st.frames, st.scan.time, |st.frames.poses6D|)
  }

  /** The kd-tree answers with key poses, and the optimiser with one pose per variable. */
  predicate Sensible(st: State, input: Input) {
    && Shaped(st.frames) && Aligned(st.queues)
    && (forall k :: 0 <= k < |input.near| ==> input.near[k].nearest < |st.frames.poses3D|)
    && (st.frames.poses3D != [] ==> Names(st.frames, Chosen(st, input.near)))
    && |input.estimate| == |st.frames.poses3D| + 1
    && |st.graph.estimate| == |st.frames.poses3D|
  }

  function Localize(c: Config, st: State, input: Input): State
    requires Sensible(st, input)
  {
    if st.frames.poses3D == [] then st
    else st.(fusion := Extract(c, st.frames, st.fusion, Chosen(st, input.near)))
  }

  lemma LocalizeFacts(c: Config, st: State, input: Input)
    requires Sensible(st, input)
    ensures var found := Localize(c, st, input);
      && found.frames == st.frames && found.scan == st.scan && Sensible(found, input)
      && Shaped(found.frames) && Aligned(found.queues) && input.estimate != []
  {
    hide Extract;
    hide Names;
  }

  /** The locked part, once the clock lets the scan through. */
  function Mapped(c: Config, st: State, input: Input): State
    requires Sensible(st, input)
  {
    var found := Localize(c, st, input);
    LocalizeFacts(c, st, input);
    Correct(if Saves(c, st, input) then Save(c, found, input) else found)
  }

  /** The locked part of the handler. */
  function Process(c: Config, st: State, input: Input): State
    requires Sensible(st, input)
  {
    if st.scan.time - st.scan.lastProcessed < c.interval then st
    else Mapped(c, st.(scan := st.scan.(lastProcessed := st.scan.time)), input)
  }

  // ---------------------------------------------------------------------------
  // The loop thread

  /** Where the final stretch of poses at or after `t` begins. */
  function TailFrom(poses: seq<KeyPose>, t: real): (n: nat)
    ensures n <= |poses|
  {
    if poses != [] && poses[|poses| - 1].time >= t then TailFrom(poses[..|poses| - 1], t) else |poses|
  }

  /** How many poses at the front are at or before `t`. */
  function HeadTo(poses: seq<KeyPose>, t: real): (n: nat)
    ensures n <= |poses|
  {
    if poses != [] && poses[0].time <= t then 1 + HeadTo(poses[1..], t) else 0
  }

  /** The key found for the later of two given times. */
  function KeyAtOrAfter(poses: seq<KeyPose>, t: real): int
    requires poses != []
  {
    var n := TailFrom(poses, t);
    if n == |poses| then |poses| - 1 else poses[n].intensity
  }

  function KeyAtOrBefore(poses: seq<KeyPose>, t: real): int {
    var n := HeadTo(poses, t);
    if n == 0 then 0 else poses[n - 1].intensity
  }

  /** A pair from the times another program sent. */
  function External(c: Config, l: LoopThread): Option<(int, int)> {
    if l.info == [] || AbsReal(l.info[0].0 - l.info[0].1) < c.timeDiff || |l.copy6D| < 2 then None
    else
      var cur, pre := KeyAtOrAfter(l.copy6D, l.info[0].0), KeyAtOrBefore(l.copy6D, l.info[0].1);
      if cur == pre || cur in l.container then None else Some((cur, pre))
  }

  /** The first of the key poses the kd-tree found that is far away in time. */
  function FirstOld(c: Config, poses: seq<KeyPose>, near: seq<nat>, now: real): Option<nat>
    requires forall k :: 0 <= k < |near| ==> near[k] < |poses|
  {
    if near == [] then None
    else if AbsReal(poses[near[0]].time - now) > c.timeDiff then Some(near[0])
    else FirstOld(c, poses, near[1..], now)
  }

  predicate Found(l: LoopThread, near: seq<nat>) {
    forall k :: 0 <= k < |near| ==> near[k] < |l.copy6D|
  }

  /** A pair of the newest copied key pose and an old one close by. */
  function ByDistance(c: Config, l: LoopThread, near: seq<nat>, now: real): Option<(int, int)>
    requires l.copy3D != [] && Found(l, near)
  {
    var cur := |l.copy3D| - 1;
    var pre := FirstOld(c, l.copy6D, near, now);
    if cur in l.container || pre.None? || pre.value == cur then None else Some((cur, pre.value))
  }

  function Detect(c: Config, l: LoopThread, near: seq<nat>, now: real): LoopThread
    requires l.copy3D != [] && Found(l, near)
  {
    var external := External(c, l);
    var pair := if external.Some? then external else ByDistance(c, l, near, now);
    l.(info := if l.info == [] then [] else l.info[1..],
       stage := if pair.Some? && pair.value.0 >= 0 && pair.value.1 >= 0 then Detected(pair.value.0, pair.value.1) else Idle)
  }

  function Received(info: seq<(real, real)>, data: seq<real>): seq<(real, real)> {
    if |data| != 2 then info
    else
      var more := info + [(data[0], data[1])];
      if |more| > LOOP_INFO_LIMIT then more[|more| - LOOP_INFO_LIMIT..] else more
  }

  // ---------------------------------------------------------------------------
  // Runs

  /** What aligning the clouds near both key frames gives: whether there were enough points and
      it converged, and the motion with its score. */
  datatype Alignment = Alignment(done: bool, motion: Pose, score: real)

  predicate Fits(c: Config, a: Alignment) { a.done && a.score <= c.fitness }

  datatype Event =
    | Receive(time: real, corner: Cloud, surf: Cloud)
    | GpsArrives(message: GpsMessage)
    | Handle(input: Input)
    | LoopInfo(data: seq<real>)
    | LoopBegin
    | LoopCopy
    | LoopDetect(near: seq<nat>)
    | LoopAlign(aligned: Alignment)
    | LoopRecord

  /** The steps each thread can take next. */
  predicate Possible(st: State, ev: Event) {
    match ev
    case Receive(_, _, _) => true
    case GpsArrives(_) => true
    case Handle(input) => Sensible(st, input)
    case LoopInfo(_) => true
    case LoopBegin => st.loops.stage.Idle?
    case LoopCopy => st.loops.stage.Ready?
    case LoopDetect(near) => st.loops.stage.Copied? && st.loops.copy3D != [] && Found(st.loops, near)
    case LoopAlign(_) => CanAlign(st.loops)
    case LoopRecord => st.loops.stage.Pushed?
  }

  predicate CanAlign(l: LoopThread) {
    l.stage.Detected? && l.stage.cur < |l.copy6D| && l.stage.pre < |l.copy6D|
  }

  /** The copied pose of the newer key frame, moved as the alignment says, to that of the older. */
  function Constraint(c: Config, l: LoopThread, a: Alignment): Factor
    requires CanAlign(l)
  {
    var cur, pre := l.stage.cur, l.stage.pre;
    Loop(cur, pre, Relative(c.compose(a.motion, l.copy6D[cur].pose), l.copy6D[pre].pose), a.score)
  }

  function Push(c: Config, st: State, a: Alignment): State
    requires CanAlign(st.loops)
  {
    var f := Constraint(c, st.loops, a);
    st.(queues := Queues(st.queues.index + [(f.from, f.to)], st.queues.pose + [f.between], st.queues.noise + [f.noise]),
        loops := st.loops.(stage := Pushed(f.from, f.to), pushed := st.loops.pushed + [f]))
  }

  function Arrived(st: State, time: real, corner: Cloud, surf: Cloud): State {
    st.(scan := st.scan.(time := time, corner := corner, surf := surf))
  }

  function GpsReceived(c: Config, st: State, m: GpsMessage): State {
    if c.useGps then st.(gps := st.gps.(queue := st.gps.queue + [m])) else st
  }

  function Apply(c: Config, st: State, ev: Event): State
    requires Possible(st, ev)
  {
    match ev
    case Receive(time, corner, surf) => Arrived(st, time, corner, surf)
    case GpsArrives(m) => GpsReceived(c, st, m)
    case Handle(input) => Process(c, st, input)
    case LoopInfo(data) => st.(loops := st.loops.(info := Received(st.loops.info, data)))
    case LoopBegin => if st.frames.poses3D == [] then st else st.(loops := st.loops.(stage := Ready))
    case LoopCopy =>
      st.(loops := st.loops.(copy3D := st.frames.poses3D, copy6D := st.frames.poses6D, stage := Copied))
    case LoopDetect(near) => st.(loops := Detect(c, st.loops, near, st.scan.time))
    case LoopAlign(a) =>
      if Fits(c, a) then Push(c, st, a) else st.(loops := st.loops.(stage := Idle))
    case LoopRecord =>
      st.(loops := st.loops.(container := st.loops.container[st.loops.stage.cur := st.loops.stage.pre], stage := Idle))
  }

  /** A step that cannot be taken changes nothing. */
  function Run(c: Config, st: State, evs: seq<Event>): State
    decreases |evs|
  {
    if evs == [] then st
    else
      var before, ev := Run(c, st, evs[..|evs| - 1]), evs[|evs| - 1];
      if Possible(before, ev) then Apply(c, before, ev) else before
  }

  // ---------------------------------------------------------------------------
  // Invariants

  /** Four arrays of one length, each intensity its index, the two pose arrays at the same
      places, and key frames at least one processing interval apart. */
  predicate FramesOk(fr: Frames, interval: real) {
    && Shaped(fr)
    && (forall i :: 0 <= i < |fr.poses3D| ==> fr.poses3D[i].intensity == i == fr.poses6D[i].intensity)
    && (forall i :: 0 <= i < |fr.poses3D| ==> SamePlace(fr.poses3D[i], fr.poses6D[i].pose))
    && (forall i :: 0 < i < |fr.poses6D| ==> fr.poses6D[i].time >= fr.poses6D[i - 1].time + interval)
  }

  predicate SamePlace(p: KeyPoint, pose: Pose) { p.x == pose.x && p.y == pose.y && p.z == pose.z }

  function KeysOf(f: Factor): set<nat> {
    match f
    case Prior(k, _) => {k}
    case Odometry(a, b, _) => {a, b}
    case Gps(fix) => {fix.key}
    case Loop(a, b, _, _) => {a, b}
  }

  /** One variable per key frame, one estimate per variable, every factor between variables,
      and the newest key pose is the optimiser's. */
  predicate GraphOk(g: Graph, fr: Frames) {
    && g.vars == Keys(|fr.poses6D|) && |g.estimate| == |fr.poses6D| && !g.closed
    && (forall f :: f in g.factors ==> KeysOf(f) <= g.vars)
    && (fr.poses6D != [] ==> fr.poses6D[|fr.poses6D| - 1].pose == g.estimate[|fr.poses6D| - 1])
  }

  predicate TimeOk(scan: Scan, fr: Frames) {
    fr.poses6D != [] ==> fr.poses6D[|fr.poses6D| - 1].time <= scan.lastProcessed
  }

  function LoopFactors(fs: seq<Factor>): seq<Factor> {
    if fs == [] then []
    else
      var last := fs[|fs| - 1];
      LoopFactors(fs[..|fs| - 1]) + (if last.Loop? then [last] else [])
  }

  function Fixes(fs: seq<Factor>): seq<Fix> {
    if fs == [] then []
    else
      var last := fs[|fs| - 1];
      Fixes(fs[..|fs| - 1]) + (if last.Gps? then [last.fix] else [])
  }

  /** The place before the `i`-th. */
  function PlaceBefore(gs: seq<Fix>, i: nat): Point
    requires i <= |gs|
  {
    if i == 0 then ORIGIN else gs[i - 1].at.place
  }

  predicate Away(gs: seq<Fix>, i: nat)
    requires i < |gs|
  {
    Apart(gs[i].at.place, PlaceBefore(gs, i))
  }

  /** No two positions bind one key frame; each is from the time of its key frame and lies at
      least five metres from the one before, the first that far from the origin. */
  predicate GpsSpaced(gs: seq<Fix>, fr: Frames) {
    && (forall i :: 0 <= i < |gs| ==> Binds(gs[i], fr))
    && (forall i :: 0 <= i < |gs| ==> Away(gs, i))
    && (forall i, j :: 0 <= i < j < |gs| ==> gs[i].key < gs[j].key)
  }

  predicate Binds(g: Fix, fr: Frames) {
    g.key < |fr.poses6D| && OnTime(g.at.time, fr.poses6D[g.key].time)
  }

  /** The factors that fix the first key frame or bind one to the next by a motion. */
  function Motions(fs: seq<Factor>): seq<Factor> {
    if fs == [] then []
    else
      var last := fs[|fs| - 1];
      Motions(fs[..|fs| - 1]) + (if last.Prior? || last.Odometry? then [last] else [])
  }

  /** Key frame 0 has the one prior, and each later one exactly one motion, from the one before. */
  predicate MotionsOk(ms: seq<Factor>, n: nat) {
    && |ms| == n
    && (n > 0 ==> ms[0].Prior? && ms[0].key == 0)
    && forall k :: 0 < k < n ==> ms[k].Odometry? && ms[k].from == k - 1 && ms[k].to == k
  }

  predicate GpsOk(g: GpsQueue, factors: seq<Factor>, fr: Frames) {
    var gs := Fixes(factors);
    GpsSpaced(gs, fr) && g.last == PlaceBefore(gs, |gs|)
  }

  /** Every constraint handed over is a factor by now or still queued, once and in order. */
  predicate HandedOver(st: State) {
    && Aligned(st.queues)
    && st.loops.pushed == LoopFactors(st.graph.factors) + Constraints(st.queues)
  }

  /** Each constraint joins two different key frames, and no two have the same source. */
  predicate Sound(pushed: seq<Factor>, n: nat) {
    && (forall i :: 0 <= i < |pushed| ==> pushed[i].Loop? && pushed[i].from != pushed[i].to)
    && (forall i :: 0 <= i < |pushed| ==> pushed[i].from < n && pushed[i].to < n)
    && (forall i, j :: 0 <= i < j < |pushed| ==> pushed[i].from != pushed[j].from)
  }

  /** The container knows the sources of the first `n` constraints. */
  predicate Records(container: map<nat, nat>, pushed: seq<Factor>, n: nat)
    requires n <= |pushed| && forall i :: 0 <= i < |pushed| ==> pushed[i].Loop?
  {
    forall i :: 0 <= i < n ==> pushed[i].from in container && container[pushed[i].from] == pushed[i].to
  }

  /** The copy is of the first key frames: their indices and times, whatever their poses. */
  predicate CopyOk(l: LoopThread, fr: Frames) {
    && |l.copy3D| == |l.copy6D| <= |fr.poses6D|
    && (forall i :: 0 <= i < |l.copy6D| ==> l.copy6D[i].intensity == i && l.copy6D[i].time == fr.poses6D[i].time)
  }

  predicate LoopOk(l: LoopThread, fr: Frames) {
    && CopyOk(l, fr) && Sound(l.pushed, |fr.poses6D|) && |l.info| <= LOOP_INFO_LIMIT
    && (l.stage.Ready? ==> fr.poses6D != [])
    && (l.stage.Copied? ==> l.copy6D != [])
    && (l.stage.Detected? ==>
          l.stage.cur < |l.copy6D| && l.stage.pre < |l.copy6D| && l.stage.cur != l.stage.pre && l.stage.cur !in l.container)
    && (l.stage.Pushed? ==>
          l.pushed != [] && l.pushed[|l.pushed| - 1].from == l.stage.cur && l.pushed[|l.pushed| - 1].to == l.stage.pre)
    && Records(l.container, l.pushed, if l.stage.Pushed? then |l.pushed| - 1 else |l.pushed|)
  }

  predicate Inv(c: Config, st: State) {
    && FramesOk(st.frames, c.interval) && TimeOk(st.scan, st.frames)
    && CacheOk(c, st.frames, st.fusion.cache) && |st.fusion.cache| <= CACHE_LIMIT
    && st.path == PathOf(st.frames.poses6D)
    && GraphOk(st.graph, st.frames)
    && HandedOver(st) && LoopOk(st.loops, st.frames)
    && GpsOk(st.gps, st.graph.factors, st.frames)
    && MotionsOk(Motions(st.graph.factors), |st.frames.poses6D|)
  }

  // ---------------------------------------------------------------------------
  // The handler keeps the invariant

  lemma {:induction false} RecentNames(fr: Frames, time: real, n: nat)
    requires Shaped(fr) && n <= |fr.poses6D|
    requires forall i :: 0 <= i < |fr.poses3D| ==> fr.poses3D[i].intensity == i
    ensures Names(fr, Recent(fr, time, n))
  {
    if n > 0 && time - fr.poses6D[n - 1].time < RECENT { RecentNames(fr, time, n - 1); }
  }

  /** Whatever the kd-tree chooses, the points handed to the fusion name key frames. */
  lemma ChosenNames(c: Config, st: State, near: seq<Near>)
    requires Inv(c, st)
    requires forall k :: 0 <= k < |near| ==> near[k].nearest < |st.frames.poses3D|
    ensures Names(st.frames, Chosen(st, near))
  {
    hide HandedOver;
    hide LoopOk;
    hide GraphOk;
    RecentNames(st.frames, st.scan.time, |st.frames.poses6D|);
  }

  lemma {:induction false} LoopFactorsAppend(fs: seq<Factor>, gs: seq<Factor>)
    ensures LoopFactors(fs + gs) == LoopFactors(fs) + LoopFactors(gs)
    decreases |gs|
  {
    if gs == [] {
      assert fs + gs == fs;
    } else {
      assert (fs + gs)[..|fs + gs| - 1] == fs + gs[..|gs| - 1];
      LoopFactorsAppend(fs, gs[..|gs| - 1]);
    }
  }

  lemma {:induction false} LoopFactorsAll(fs: seq<Factor>)
    requires forall i :: 0 <= i < |fs| ==> fs[i].Loop?
    ensures LoopFactors(fs) == fs
    decreases |fs|
  {
    if fs != [] { LoopFactorsAll(fs[..|fs| - 1]); }
  }

  lemma {:induction false} FixesAppend(fs: seq<Factor>, gs: seq<Factor>)
    ensures Fixes(fs + gs) == Fixes(fs) + Fixes(gs)
    decreases |gs|
  {
    if gs == [] {
      assert fs + gs == fs;
    } else {
      assert (fs + gs)[..|fs + gs| - 1] == fs + gs[..|gs| - 1];
      FixesAppend(fs, gs[..|gs| - 1]);
    }
  }

  lemma {:induction false} FixesNone(fs: seq<Factor>)
    requires forall i :: 0 <= i < |fs| ==> !fs[i].Gps?
    ensures Fixes(fs) == []
    decreases |fs|
  {
    if fs != [] { FixesNone(fs[..|fs| - 1]); }
  }

  lemma NewFixes(c: Config, st: State, input: Input)
    requires Shaped(st.frames) && Aligned(st.queues)
    ensures Fixes(NewFactors(c, st, input)) == Fixes(GpsFactors(c, st, input.guess))
  {
    var odometry, gps, loops :=
      [OdometryFactor(st.frames, input.guess)], GpsFactors(c, st, input.guess), Constraints(st.queues);
    FixesAppend(odometry + gps, loops);
    FixesAppend(odometry, gps);
    FixesNone(loops);
    FixesNone(odometry);
  }

  /** The positions stay spaced when key frames are added or moved. */
  lemma GpsMoreFrames(gs: seq<Fix>, fr: Frames, more: Frames)
    requires GpsSpaced(gs, fr) && |fr.poses6D| <= |more.poses6D|
    requires forall i :: 0 <= i < |fr.poses6D| ==> more.poses6D[i].time == fr.poses6D[i].time
    ensures GpsSpaced(gs, more)
  {
    hide Apart;
    forall i | 0 <= i < |gs| ensures Binds(gs[i], more) {
      assert Binds(gs[i], fr);
    }
  }

  lemma GpsOneMore(gs: seq<Fix>, g: Fix, fr: Frames)
    requires GpsSpaced(gs, fr) && Binds(g, fr) && Apart(g.at.place, PlaceBefore(gs, |gs|))
    requires forall i :: 0 <= i < |gs| ==> gs[i].key < g.key
    ensures GpsSpaced(gs + [g], fr)
  {
    hide Apart;
    hide Binds;
    var more := gs + [g];
    forall i | 0 <= i < |more| ensures Away(more, i) {
      assert PlaceBefore(more, i) == PlaceBefore(gs, i);
      if i < |gs| { assert Away(gs, i); }
    }
  }

  lemma {:induction false} MotionsAppend(fs: seq<Factor>, gs: seq<Factor>)
    ensures Motions(fs + gs) == Motions(fs) + Motions(gs)
    decreases |gs|
  {
    if gs == [] {
      assert fs + gs == fs;
    } else {
      assert (fs + gs)[..|fs + gs| - 1] == fs + gs[..|gs| - 1];
      MotionsAppend(fs, gs[..|gs| - 1]);
    }
  }

  lemma {:induction false} MotionsNone(fs: seq<Factor>)
    requires forall i :: 0 <= i < |fs| ==> !fs[i].Prior? && !fs[i].Odometry?
    ensures Motions(fs) == []
    decreases |fs|
  {
    if fs != [] { MotionsNone(fs[..|fs| - 1]); }
  }

  lemma NewMotion(c: Config, st: State, input: Input)
    requires Shaped(st.frames) && Aligned(st.queues)
    ensures Motions(NewFactors(c, st, input)) == [OdometryFactor(st.frames, input.guess)]
  {
    var odometry, gps, loops :=
      [OdometryFactor(st.frames, input.guess)], GpsFactors(c, st, input.guess), Constraints(st.queues);
    MotionsAppend(odometry + gps, loops);
    MotionsAppend(odometry, gps);
    MotionsNone(loops);
    MotionsNone(gps);
    assert Motions(odometry) == odometry by { assert Motions(odometry[..0]) == []; }
  }

  lemma MotionsGrow(ms: seq<Factor>, f: Factor, n: nat)
    requires MotionsOk(ms, n)
    requires if n == 0 then f.Prior? && f.key == 0 else f.Odometry? && f.from == n - 1 && f.to == n
    ensures MotionsOk(ms + [f], n + 1)
  {}

  lemma SaveMotions(c: Config, st: State, input: Input)
    requires Shaped(st.frames) && Aligned(st.queues) && input.estimate != []
    requires MotionsOk(Motions(st.graph.factors), |st.frames.poses6D|)
    ensures Motions(Save(c, st, input).graph.factors) == Motions(st.graph.factors) + [OdometryFactor(st.frames, input.guess)]
    ensures MotionsOk(Motions(Save(c, st, input).graph.factors), |Save(c, st, input).frames.poses6D|)
  {
    hide NewFactors;
    hide Motions;
    hide MotionsOk;
    hide AfterGps;
    hide GpsFactors;
    NewMotion(c, st, input);
    MotionsAppend(st.graph.factors, NewFactors(c, st, input));
    MotionsGrow(Motions(st.graph.factors), OdometryFactor(st.frames, input.guess), |st.frames.poses6D|);
  }

  lemma SaveGps(c: Config, st: State, input: Input)
    requires Shaped(st.frames) && Aligned(st.queues) && input.estimate != []
    requires GpsOk(st.gps, st.graph.factors, st.frames)
    ensures GpsOk(Save(c, st, input).gps, Save(c, st, input).graph.factors, Save(c, st, input).frames)
  {
    var gs, fs, fr := Fixes(st.graph.factors), GpsFactors(c, st, input.guess), Save(c, st, input).frames;
    NewFixes(c, st, input);
    FixesAppend(st.graph.factors, NewFactors(c, st, input));
    GpsFactorFits(c, st, input.guess);
    GpsMoreFrames(gs, st.frames, fr);
    assert forall i :: 0 <= i < |gs| ==> Binds(gs[i], st.frames);
    hide NewFactors;
    hide Fixes;
    hide GpsFactors;
    hide AfterGps;
    hide Apart;
    hide GpsSpaced;
    var news := Fixes(fs);
    if news == [] {
      assert gs + news == gs;
    } else {
      assert news == [news[0]] && fr.poses6D[|st.frames.poses3D|].time == st.scan.time;
      GpsOneMore(gs, news[0], fr);
    }
  }

  /** A position taken is on time, far from the last one used, and becomes it. */
  lemma GpsFactorFits(c: Config, st: State, guess: Pose)
    ensures var fs := Fixes(GpsFactors(c, st, guess));
      && |fs| <= 1
      && (fs != [] ==>
            && fs[0].key == |st.frames.poses3D| && OnTime(fs[0].at.time, st.scan.time)
            && Apart(fs[0].at.place, st.gps.last))
      && AfterGps(c, st, guess).last == (if fs == [] then st.gps.last else fs[0].at.place)
  {
    SearchMeaning(c, st.gps.queue, st.scan.time, guess, st.gps.last);
    hide Search;
    hide Apart;
    var fs := GpsFactors(c, st, guess);
    if fs != [] { assert Fixes(fs[..0]) == []; }
  }

  lemma NewLoopFactors(c: Config, st: State, input: Input)
    requires Shaped(st.frames) && Aligned(st.queues)
    ensures LoopFactors(NewFactors(c, st, input)) == Constraints(st.queues)
  {
    var odometry, gps, loops :=
      [OdometryFactor(st.frames, input.guess)], GpsFactors(c, st, input.guess), Constraints(st.queues);
    LoopFactorsAppend(odometry + gps, loops);
    LoopFactorsAppend(odometry, gps);
    LoopFactorsAll(loops);
    assert LoopFactors(odometry) == [] by { assert LoopFactors(odometry[..0]) == []; }
    assert LoopFactors(gps) == [] by { if gps != [] { assert LoopFactors(gps[..0]) == []; } }
  }

  lemma SaveHandsOver(c: Config, st: State, input: Input)
    requires Shaped(st.frames) && input.estimate != [] && HandedOver(st)
    ensures HandedOver(Save(c, st, input))
  {
    NewLoopFactors(c, st, input);
    LoopFactorsAppend(st.graph.factors, NewFactors(c, st, input));
    hide NewFactors;
    hide LoopFactors;
  }

  lemma SaveFrames(c: Config, fr: Frames, scan: Scan, pose: Pose)
    requires FramesOk(fr, c.interval)
    requires fr.poses6D != [] ==> scan.time >= fr.poses6D[|fr.poses6D| - 1].time + c.interval
    ensures FramesOk(AddFrame(c, fr, scan, pose), c.interval)
  {}

  lemma SaveCache(c: Config, fr: Frames, scan: Scan, pose: Pose, cache: map<int, (Cloud, Cloud)>)
    requires Shaped(fr) && CacheOk(c, fr, cache)
    ensures CacheOk(c, AddFrame(c, fr, scan, pose), cache)
  {
    hide Moved;
  }

  lemma SaveLoops(c: Config, l: LoopThread, fr: Frames, scan: Scan, pose: Pose)
    requires Shaped(fr) && LoopOk(l, fr)
    ensures LoopOk(l, AddFrame(c, fr, scan, pose))
  {}

  /** What holds between saving a key frame and correcting the poses. */
  predicate Saved(c: Config, st: State) {
    && FramesOk(st.frames, c.interval) && TimeOk(st.scan, st.frames) && st.frames.poses6D != []
    && CacheOk(c, st.frames, st.fusion.cache) && |st.fusion.cache| <= CACHE_LIMIT
    && st.path == PathOf(st.frames.poses6D)
    && GraphOk(st.graph.(closed := false), st.frames)
    && HandedOver(st) && LoopOk(st.loops, st.frames)
    && GpsOk(st.gps, st.graph.factors, st.frames)
    && MotionsOk(Motions(st.graph.factors), |st.frames.poses6D|)
  }

  /** The factors of a new key frame name it or earlier ones. */
  lemma NewFactorsFit(c: Config, st: State, input: Input)
    requires Shaped(st.frames) && HandedOver(st) && LoopOk(st.loops, st.frames) && GraphOk(st.graph, st.frames)
    ensures |st.frames.poses3D| !in st.graph.vars
    ensures forall f :: f in NewFactors(c, st, input) ==> KeysOf(f) <= st.graph.vars + {|st.frames.poses3D|}
  {
    var q := Constraints(st.queues);
    var vars := st.graph.vars + {|st.frames.poses3D|};
    forall k | 0 <= k < |q| ensures KeysOf(q[k]) <= vars {
      var m := |LoopFactors(st.graph.factors)|;
      assert st.loops.pushed[m + k] == q[k];
    }
    forall f | f in NewFactors(c, st, input) ensures KeysOf(f) <= vars {
      if f in q {
        var k :| 0 <= k < |q| && q[k] == f;
      }
    }
  }

  lemma WithoutGps(c: Config, st: State, guess: Pose)
    requires !c.useGps
    ensures GpsFactors(c, st, guess) == [] && AfterGps(c, st, guess) == st.gps
  {}

  lemma FactorsFit(c: Config, st: State, input: Input)
    requires Inv(c, st) && Sensible(st, input)
    ensures Shaped(st.frames) && Aligned(st.queues) && input.estimate != [] && |st.frames.poses3D| !in st.graph.vars
    ensures forall f :: f in NewFactors(c, st, input) ==> KeysOf(f) <= st.graph.vars + {|st.frames.poses3D|}
  {
    SensibleShape(st, input);
    NewFactorsFit(c, st, input);
    hide Sensible;
    hide NewFactors;
    hide CacheOk;
    hide FramesOk;
  }

  lemma SaveGraph(c: Config, st: State, input: Input)
    requires Shaped(st.frames) && HandedOver(st) && LoopOk(st.loops, st.frames) && GraphOk(st.graph, st.frames)
    requires |input.estimate| == |st.frames.poses3D| + 1
    ensures GraphOk(Save(c, st, input).graph.(closed := false), Save(c, st, input).frames)
  {
    NewFactorsFit(c, st, input);
    hide NewFactors;
    hide HandedOver;
    hide LoopOk;
  }

  lemma SaveKeeps(c: Config, st: State, input: Input)
    requires Inv(c, st) && Sensible(st, input)
    requires st.frames.poses6D != [] ==> st.scan.time >= st.frames.poses6D[|st.frames.poses6D| - 1].time + c.interval
    requires st.scan.time == st.scan.lastProcessed
    ensures Saved(c, Save(c, st, input))
  {
    var pose := input.estimate[|input.estimate| - 1];
    SaveHandsOver(c, st, input);
    SaveFrames(c, st.frames, st.scan, pose);
    SaveCache(c, st.frames, st.scan, pose, st.fusion.cache);
    SaveLoops(c, st.loops, st.frames, st.scan, pose);
    SaveGraph(c, st, input);
    SaveGps(c, st, input);
    SaveMotions(c, st, input);
    SavePath(c, st, input);
    hide Moved;
    hide GpsOk;
    hide MotionsOk;
    hide NewFactors;
    hide AfterGps;
    hide FramesOk;
    hide CacheOk;
    hide LoopOk;
    hide HandedOver;
    hide GraphOk;
    hide PathOf;
    hide Extended;
  }

  lemma SavePath(c: Config, st: State, input: Input)
    requires Shaped(st.frames) && Aligned(st.queues) && input.estimate != [] && st.path == PathOf(st.frames.poses6D)
    ensures Save(c, st, input).path == PathOf(Save(c, st, input).frames.poses6D)
  {}

  lemma CorrectedFrames(c: Config, fr: Frames, estimate: seq<Pose>)
    requires FramesOk(fr, c.interval) && |estimate| == |fr.poses3D|
    ensures FramesOk(Corrected(fr, estimate), c.interval)
  {}

  lemma CorrectedLoops(l: LoopThread, fr: Frames, estimate: seq<Pose>)
    requires Shaped(fr) && LoopOk(l, fr) && |estimate| == |fr.poses3D|
    ensures LoopOk(l, Corrected(fr, estimate))
  {}

  lemma CorrectedGps(g: GpsQueue, factors: seq<Factor>, fr: Frames, estimate: seq<Pose>)
    requires Shaped(fr) && |estimate| == |fr.poses3D| && GpsOk(g, factors, fr)
    ensures GpsOk(g, factors, Corrected(fr, estimate))
  {
    GpsMoreFrames(Fixes(factors), fr, Corrected(fr, estimate));
    hide GpsSpaced;
  }

  lemma CorrectedGraph(g: Graph, fr: Frames)
    requires Shaped(fr) && |g.estimate| == |fr.poses3D| && GraphOk(g, fr)
    ensures GraphOk(g, Corrected(fr, g.estimate))
  {}

  lemma CorrectKeeps(c: Config, st: State)
    requires Saved(c, st)
    ensures Inv(c, Correct(st))
  {
    if st.graph.closed {
      CorrectedKeeps(c, st);
    } else {
      assert st.graph.(closed := false) == st.graph;
    }
    hide GraphOk;
    hide CacheOk;
    hide LoopOk;
    hide FramesOk;
    hide GpsOk;
    hide MotionsOk;
    hide PathOf;
    hide Corrected;
    hide HandedOver;
  }

  lemma CorrectedKeeps(c: Config, st: State)
    requires Saved(c, st) && st.graph.closed
    ensures Inv(c, Correct(st))
  {
    hide LoopFactors;
    hide Constraints;
    hide Moved;
    hide Fixes;
    var fr := Corrected(st.frames, st.graph.estimate);
    CorrectedFrames(c, st.frames, st.graph.estimate);
    CorrectedLoops(st.loops, st.frames, st.graph.estimate);
    CorrectedGps(st.gps, st.graph.factors, st.frames, st.graph.estimate);
    CorrectedGraph(st.graph.(closed := false), st.frames);
    hide GraphOk;
    hide LoopOk;
    hide GpsOk;
    hide MotionsOk;
    hide PathOf;
    assert TimeOk(st.scan, fr) && CacheOk(c, fr, map[]) && HandedOver(Correct(st));
    hide FramesOk;
    hide TimeOk;
    hide CacheOk;
    hide HandedOver;
    hide Corrected;
  }

  lemma LocalizeKeeps(c: Config, st: State, input: Input)
    requires Inv(c, st) && Sensible(st, input)
    ensures Inv(c, Localize(c, st, input))
  {
    if st.frames.poses3D != [] { ExtractIsDirect(c, st.frames, st.fusion, Chosen(st, input.near)); }
    hide Extract;
    hide LoopOk;
    hide HandedOver;
    hide GraphOk;
    hide FramesOk;
  }

  lemma Starts(c: Config, st: State, input: Input)
    requires c.Valid() && Inv(c, st) && Sensible(st, input) && st.scan.time - st.scan.lastProcessed >= c.interval
    ensures var started := st.(scan := st.scan.(lastProcessed := st.scan.time));
      && Inv(c, started) && Sensible(started, input)
      && (st.frames.poses6D != [] ==> st.scan.time >= st.frames.poses6D[|st.frames.poses6D| - 1].time + c.interval)
  {
    hide LoopOk;
    hide GraphOk;
    hide FramesOk;
    hide CacheOk;
    hide Names;
  }

  lemma SensibleShape(st: State, input: Input)
    requires Sensible(st, input)
    ensures Shaped(st.frames) && Aligned(st.queues) && input.estimate != []
  {}

  lemma SavedShape(c: Config, st: State, input: Input)
    requires Sensible(st, input)
    ensures Shaped(st.frames) && Aligned(st.queues) && input.estimate != []
    ensures var s := if Saves(c, st, input) then Save(c, st, input) else st;
      Shaped(s.frames) && |s.graph.estimate| == |s.frames.poses3D|
  {
    hide Names;
  }

  lemma MappedKeeps(c: Config, st: State, input: Input)
    requires Inv(c, st) && Sensible(st, input) && st.scan.time == st.scan.lastProcessed
    requires st.frames.poses6D != [] ==> st.scan.time >= st.frames.poses6D[|st.frames.poses6D| - 1].time + c.interval
    ensures Inv(c, Mapped(c, st, input))
  {
    hide Inv;
    hide Sensible;
    hide Localize;
    hide Saved;
    hide Correct;
    LocalizeKeeps(c, st, input);
    LocalizeFacts(c, st, input);
    var found := Localize(c, st, input);
    if Saves(c, st, input) {
      SaveKeeps(c, found, input);
      CorrectKeeps(c, Save(c, found, input));
    } else {
      NothingToCorrect(c, found);
    }
  }

  lemma HandleKeeps(c: Config, st: State, input: Input)
    requires c.Valid() && Inv(c, st) && Sensible(st, input)
    ensures Inv(c, Process(c, st, input))
  {
    hide Inv;
    hide Sensible;
    hide Mapped;
    if st.scan.time - st.scan.lastProcessed >= c.interval {
      Starts(c, st, input);
      MappedKeeps(c, st.(scan := st.scan.(lastProcessed := st.scan.time)), input);
    }
  }

  lemma NothingToCorrect(c: Config, st: State)
    requires Inv(c, st)
    ensures Correct(st) == st
  {}
}
