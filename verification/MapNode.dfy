/** The node of the map back end as an object, each method proved against the steps. */
module MapNode {
  import opened Basics
  import opened MapOptimization
  import opened MapRuns

  lemma {:induction false} TailIs(poses: seq<KeyPose>, t: real, n: nat)
    requires n <= |poses| && (forall k :: n <= k < |poses| ==> poses[k].time >= t)
    requires n > 0 ==> poses[n - 1].time < t
    ensures TailFrom(poses, t) == n
  {
    var m := TailFrom(poses, t);
    TailMeaning(poses, t);
    if m < n {
    } else if n < m {
    }
  }

  lemma {:induction false} HeadIs(poses: seq<KeyPose>, t: real, n: nat)
    requires n <= |poses| && (forall k :: 0 <= k < n ==> poses[k].time <= t)
    requires n < |poses| ==> poses[n].time > t
    ensures HeadTo(poses, t) == n
  {
    var m := HeadTo(poses, t);
    HeadMeaning(poses, t);
    if m < n {
    } else if n < m {
    }
  }

  /** The first `i` elements are replaced. */
  function Partly<T>(done: seq<T>, before: seq<T>, i: nat): (r: seq<T>)
    requires i <= |done| == |before|
    ensures |r| == |done|
  {
    done[..i] + before[i..]
  }

  lemma Replace<T>(done: seq<T>, before: seq<T>, i: nat)
    requires |done| == |before| && i < |done|
    ensures Partly(done, before, i)[i] == before[i]
    ensures Partly(done, before, i)[i := done[i]] == Partly(done, before, i + 1)
  {}

  lemma AllReplaced<T>(done: seq<T>, before: seq<T>)
    requires |done| == |before|
    ensures Partly(done, before, |done|) == done && Partly(done, before, 0) == before
  {}

  lemma CorrectedAt(fr: Frames, estimate: seq<Pose>, i: nat)
    requires Shaped(fr) && i < |estimate| == |fr.poses3D|
    ensures var r, pose := Corrected(fr, estimate), estimate[i];
      && |r.poses3D| == |r.poses6D| == |estimate|
      && r.poses3D[i] == fr.poses3D[i].(x := pose.x, y := pose.y, z := pose.z)
      && r.poses6D[i] == fr.poses6D[i].(pose := pose)
  {}

  lemma PathAppend(poses: seq<KeyPose>, i: nat)
    requires i < |poses|
    ensures PathOf(poses[..i + 1]) == PathOf(poses[..i]) + [PathPose(poses[i].pose, poses[i].time)]
  {}

  lemma SameByDistance(c: Config, l: LoopThread, info: seq<(real, real)>, near: seq<nat>, now: real)
    requires l.copy3D != [] && Found(l, near)
    ensures Found(l.(info := info), near) && ByDistance(c, l.(info := info), near, now) == ByDistance(c, l, near, now)
  {}

  /** The node: its variables in seven groups, and the factors and values not yet given to the
      optimiser. */
  class MapOptimizer {
    const config: Config
    var scan: Scan
    var frames: Frames
    var fusion: Fusion
    var globalPath: seq<PathPose>
    var graph: Graph
    var gtSAMgraph: seq<Factor>
    var initialEstimate: set<nat>
    var queues: Queues
    var gps: GpsQueue
    var loops: LoopThread

    ghost function Now(): State
      reads this
    {
      State(scan, frames, fusion, globalPath, graph, queues, gps, loops)
    }

    ghost predicate Valid()
      reads this
    {
      config.Valid() && Inv(config, Now()) && gtSAMgraph == [] && initialEstimate == {}
    }

    constructor (config: Config)
      requires config.Valid()
      ensures Valid() && Now() == INITIAL && this.config == config
    {
      InitialKeeps(config);
      hide Inv;
      this.config := config;
      scan, frames, fusion, globalPath := Scan(0.0, -1.0, [], []), Frames([], [], [], []), Fusion(map[], [], []), [];
      graph, gtSAMgraph, initialEstimate := Graph(false, [], {}, []), [], {};
      queues, gps := Queues([], [], []), GpsQueue([], ORIGIN, (0.0, 0.0));
      loops := LoopThread(map[], [], [], [], Idle, []);
    }

    /** The unlocked start of the handler. */
    method ReceiveCloudInfo(time: real, corner: Cloud, surf: Cloud)
      requires Valid()
      modifies this`scan
      ensures Valid() && Now() == Arrived(old(Now()), time, corner, surf)
      ensures scan == Scan(time, old(scan).lastProcessed, corner, surf)
    {
      ArrivedKeeps(config, Now(), time, corner, surf);
      hide Inv;
      scan := scan.(time := time, corner := corner, surf := surf);
    }

    method TransformPointCloud(cloud: Cloud, pose: Pose) returns (moved: Cloud)
      ensures moved == Moved(config, cloud, pose)
    {
      moved := [];
      for i := 0 to |cloud|
        invariant moved == Moved(config, cloud[..i], pose)
      {
        moved := moved + [config.move(pose, cloud[i])];
      }
      assert cloud[..|cloud|] == cloud;
    }

    /** One chosen point: its key frame's clouds come from the cache, or go there. */
    method FusePoint(p: KeyPoint)
      requires Shaped(frames) && frames.poses3D != [] && 0 <= p.intensity < |frames.poses6D|
      modifies this`fusion
      ensures fusion == FuseOne(config, frames, old(fusion), p)
    {
      hide Moved;
      if !Within(p, frames.poses3D[|frames.poses3D| - 1], config.searchRadius) { return; }
      var k := p.intensity;
      if k in fusion.cache {
        fusion := fusion.(corner := fusion.corner + fusion.cache[k].0, surf := fusion.surf + fusion.cache[k].1);
      } else {
        var corner := TransformPointCloud(frames.corner[k], frames.poses6D[k].pose);
        var surf := TransformPointCloud(frames.surf[k], frames.poses6D[k].pose);
        fusion := fusion.(corner := fusion.corner + corner, surf := fusion.surf + surf);
        fusion := fusion.(cache := fusion.cache[k := (corner, surf)]);
      }
    }

    /** The local map of the chosen points. While the cache is right, this is the map built
        without one. */
    method ExtractCloud(points: seq<KeyPoint>)
      requires Shaped(frames) && frames.poses3D != [] && Names(frames, points) && CacheOk(config, frames, fusion.cache)
      modifies this`fusion
      ensures fusion == Extract(config, frames, old(fusion), points)
      ensures (fusion.corner, fusion.surf) == Direct(config, frames, points)
      ensures CacheOk(config, frames, fusion.cache)
    {
      hide FuseOne;
      hide CacheOk;
      hide Direct;
      ExtractIsDirect(config, frames, fusion, points);
      fusion := fusion.(corner := [], surf := []);
      ghost var start := fusion;
      for i := 0 to |points|
        modifies this`fusion
        invariant fusion == Fuse(config, frames, start, points[..i])
      {
        FusePoint(points[i]);
        assert points[..i + 1][..i] == points[..i];
      }
      assert points[..|points|] == points;
      if |fusion.cache| > CACHE_LIMIT { fusion := fusion.(cache := map[]); }
    }

    /** The key poses near the newest one and all recent ones. */
    method ExtractNearby(near: seq<Near>)
      requires Inv(config, Now()) && frames.poses3D != []
      requires forall k :: 0 <= k < |near| ==> near[k].nearest < |frames.poses3D|
      modifies this`fusion
      ensures Names(frames, Chosen(old(Now()), near))
      ensures fusion == Extract(config, frames, old(fusion), Chosen(old(Now()), near))
      ensures (fusion.corner, fusion.surf) == Direct(config, frames, Chosen(old(Now()), near))
    {
      ChosenNames(config, Now(), near);
      hide LoopOk;
      hide GraphOk;
      hide HandedOver;
      hide FuseOne;
      hide Direct;
      hide CacheOk;
      hide Names;
      hide Extract;
      var points := [];
      for k := 0 to |near|
        invariant points == Surrounding(frames, near[..k])
      {
        var pt := near[k].point;
        points := points + [KeyPoint(pt.x, pt.y, pt.z, frames.poses3D[near[k].nearest].intensity)];
      }
      assert near[..|near|] == near;
      ghost var first := points;
      var i := |frames.poses3D|;
      while i > 0 && scan.time - frames.poses6D[i - 1].time < RECENT
        invariant 0 <= i <= |frames.poses3D|
        invariant points + Recent(frames, scan.time, i) == first + Recent(frames, scan.time, |frames.poses6D|)
      {
        assert points + Recent(frames, scan.time, i) == points + [frames.poses3D[i - 1]] + Recent(frames, scan.time, i - 1);
        i := i - 1;
        points := points + [frames.poses3D[i]];
      }
      assert points == Chosen(Now(), near);
      ExtractCloud(points);
    }

    /** The local map, once there is a key frame. */
    method ExtractSurroundingKeyFrames(input: Input)
      requires Inv(config, Now()) && Sensible(Now(), input)
      modifies this`fusion
      ensures Now() == Localize(config, old(Now()), input)
      ensures Inv(config, Now()) && Sensible(Now(), input)
    {
      LocalizeKeeps(config, Now(), input);
      LocalizeFacts(config, Now(), input);
      hide Inv;
      hide Extract;
      hide Names;
      hide Direct;
      hide Chosen;
      if frames.poses3D != [] { ExtractNearby(input.near); }
    }

    /** A prior for the first key frame, a motion since the last one for every other. */
    method AddOdomFactor(guess: Pose)
      requires Shaped(frames)
      modifies this`gtSAMgraph, this`initialEstimate
      ensures gtSAMgraph == old(gtSAMgraph) + [OdometryFactor(frames, guess)]
      ensures initialEstimate == old(initialEstimate) + {|frames.poses3D|}
    {
      var n := |frames.poses3D|;
      if n == 0 {
        gtSAMgraph := gtSAMgraph + [Prior(0, guess)];
        initialEstimate := initialEstimate + {0};
      } else {
        var from := frames.poses6D[|frames.poses6D| - 1].pose;
        gtSAMgraph := gtSAMgraph + [Odometry(n - 1, n, Relative(from, guess))];
        initialEstimate := initialEstimate + {n};
      }
    }

    method GpsHandler(message: GpsMessage)
      requires Valid()
      modifies this`gps
      ensures Valid() && Now() == Apply(config, old(Now()), GpsArrives(message))
      ensures gps == if config.useGps then old(gps).(queue := old(gps).queue + [message]) else old(gps)
    {
      GpsReceivedKeeps(config, Now(), message);
      hide Inv;
      hide Process;
      hide Detect;
      if !config.useGps { return; }
      gps := gps.(queue := gps.queue + [message]);
    }

    /** At most one position is taken from the queue: too old ones and ones not good are dropped on
        the way, and the search ends at one that is too new. */
    method AddGpsFactor(guess: Pose)
      modifies this`gtSAMgraph, this`graph, this`gps
      ensures gtSAMgraph == old(gtSAMgraph) + GpsFactors(config, old(Now()), guess)
      ensures graph == old(graph).(closed := old(graph).closed || GpsFactors(config, old(Now()), guess) != [])
      ensures gps == AfterGps(config, old(Now()), guess)
    {
      hide Apart;
      if !config.useGps || gps.queue == [] || frames.poses3D == [] { return; }
      if !Apart(PlaceOf(frames.poses3D[0]), PlaceOf(frames.poses3D[|frames.poses3D| - 1])) { return; }
      if gps.covariance.0 < config.poseCovariance && gps.covariance.1 < config.poseCovariance { return; }
      ghost var answer := Search(config, gps.queue, scan.time, guess, gps.last);
      while gps.queue != []
        invariant gps == old(gps).(queue := gps.queue) && gtSAMgraph == old(gtSAMgraph) && graph == old(graph)
        invariant Search(config, gps.queue, scan.time, guess, gps.last) == answer
        decreases |gps.queue|
      {
        var thisGps := gps.queue[0];
        if thisGps.time < scan.time - 0.2 {
          gps := gps.(queue := gps.queue[1..]);
        } else if thisGps.time > scan.time + 0.2 {
          break;
        } else {
          gps := gps.(queue := gps.queue[1..]);
          if thisGps.noise.x > config.gpsCovariance || thisGps.noise.y > config.gpsCovariance { continue; }
          var z, noiseZ := thisGps.place.z, thisGps.noise.z;
          if !config.useElevation { z, noiseZ := guess.z, 0.01; }
          if AbsReal(thisGps.place.x) < 0.000001 && AbsReal(thisGps.place.y) < 0.000001 { continue; }
          var place := Point(thisGps.place.x, thisGps.place.y, z);
          if !Apart(place, gps.last) { continue; }
          gps := gps.(last := place);
          var noise := Vec3(Max(thisGps.noise.x, 1.0), Max(thisGps.noise.y, 1.0), Max(noiseZ, 1.0));
          gtSAMgraph := gtSAMgraph + [Gps(Fix(|frames.poses3D|, GpsMessage(thisGps.time, place, noise)))];
          graph := graph.(closed := true);
          break;
        }
      }
    }

    /** Every queued constraint becomes a factor, in order, and the queues are emptied. */
    method AddLoopFactor()
      requires Aligned(queues)
      modifies this`gtSAMgraph, this`graph, this`queues
      ensures gtSAMgraph == old(gtSAMgraph) + Constraints(old(queues)) && queues == Queues([], [], [])
      ensures graph == old(graph).(closed := old(graph).closed || old(queues).index != [])
    {
      if queues.index == [] {
        assert Constraints(queues) == [] && queues.pose == [] && queues.noise == [];
        return;
      }
      ghost var q := Constraints(queues);
      for i := 0 to |queues.index|
        modifies this`gtSAMgraph
        invariant gtSAMgraph == old(gtSAMgraph) + q[..i]
      {
        var indexFrom, indexTo := queues.index[i].0, queues.index[i].1;
        gtSAMgraph := gtSAMgraph + [Loop(indexFrom, indexTo, queues.pose[i], queues.noise[i])];
        assert q[..i + 1] == q[..i] + [q[i]];
      }
      queues := Queues([], [], []);
      graph := graph.(closed := true);
    }

    /** The optimiser takes the pending factors and values and answers with `estimate`. It refuses
        a value it already has and a factor on a variable it does not know. */
    method UpdateOptimizer(estimate: seq<Pose>)
      requires initialEstimate * graph.vars == {}
      requires forall f :: f in gtSAMgraph ==> KeysOf(f) <= graph.vars + initialEstimate
      modifies this`graph, this`gtSAMgraph, this`initialEstimate
      ensures graph == Graph(old(graph).closed, estimate, old(graph).vars + old(initialEstimate),
                             old(graph).factors + old(gtSAMgraph))
      ensures gtSAMgraph == [] && initialEstimate == {}
    {
      graph := Graph(graph.closed, estimate, graph.vars + initialEstimate, graph.factors + gtSAMgraph);
      gtSAMgraph, initialEstimate := [], {};
    }

    method UpdatePath(pose: KeyPose)
      modifies this`globalPath
      ensures globalPath == old(globalPath) + [PathPose(pose.pose, pose.time)]
    {
      globalPath := globalPath + [PathPose(pose.pose, pose.time)];
    }

    /** The factors of a new key frame and the optimisation. */
    method OptimizeGraph(input: Input)
      requires Inv(config, Now()) && Sensible(Now(), input) && gtSAMgraph == [] && initialEstimate == {}
      modifies this`gtSAMgraph, this`initialEstimate, this`graph, this`queues, this`gps
      ensures gtSAMgraph == [] && initialEstimate == {}
      ensures graph == Extended(config, old(Now()), input) && queues == Queues([], [], [])
      ensures gps == AfterGps(config, old(Now()), input.guess)
    {
      hide Inv;
      hide Sensible;
      hide Constraints;
      hide GpsFactors;
      hide OdometryFactor;
      hide KeysOf;
      FactorsFit(config, Now(), input);
      if !config.useGps { WithoutGps(config, Now(), input.guess); }
      ghost var st := Now();
      AddOdomFactor(input.guess);
      assert Now() == st;
      if config.useGps { AddGpsFactor(input.guess); }
      AddLoopFactor();
      assert gtSAMgraph == NewFactors(config, st, input);
      UpdateOptimizer(input.estimate);
    }

    /** The thinned clouds of the scan. */
    method DownsampleCurrentScan() returns (corner: Cloud, surf: Cloud)
      ensures corner == config.sampleCorner(scan.corner) && surf == config.sampleSurf(scan.surf)
    {
      corner := config.sampleCorner(scan.corner);
      surf := config.sampleSurf(scan.surf);
    }

    /** Whether the scan is far enough from the last key frame. */
    method SaveFrame(guess: Pose) returns (saves: bool)
      requires Shaped(frames)
      ensures saves <==>
        frames.poses3D == [] || Far(config, frames.poses6D[|frames.poses6D| - 1], scan.time, guess)
    {
      if frames.poses3D == [] { return true; }
      var last := frames.poses6D[|frames.poses6D| - 1];
      if config.livox {
        if scan.time - last.time > 1.0 { return true; }
      }
      var d := config.between(last.pose, guess);
      if AbsReal(d.roll) < config.addAngle && AbsReal(d.pitch) < config.addAngle && AbsReal(d.yaw) < config.addAngle
        && Shorter(d.x, d.y, d.z, config.addDistance)
      {
        return false;
      }
      return true;
    }

    /** A new key frame at the optimiser's newest pose, with its clouds and path entry. */
    method AddKeyFrame(pose: Pose)
      modifies this`frames, this`globalPath
      ensures frames == AddFrame(config, old(frames), scan, pose)
      ensures globalPath == old(globalPath) + [PathPose(pose, scan.time)]
    {
      var n := |frames.poses3D|;
      frames := frames.(poses3D := frames.poses3D + [KeyPoint(pose.x, pose.y, pose.z, n)]);
      var thisPose6D := KeyPose(pose, n, scan.time);
      frames := frames.(poses6D := frames.poses6D + [thisPose6D]);
      var corner, surf := DownsampleCurrentScan();
      frames := frames.(corner := frames.corner + [corner], surf := frames.surf + [surf]);
      UpdatePath(thisPose6D);
    }

    method SaveKeyFramesAndFactor(input: Input)
      requires Inv(config, Now()) && Sensible(Now(), input) && gtSAMgraph == [] && initialEstimate == {}
      modifies this`gtSAMgraph, this`initialEstimate, this`graph, this`queues, this`gps, this`frames, this`globalPath
      ensures gtSAMgraph == [] && initialEstimate == {}
      ensures Shaped(old(frames)) && Aligned(old(queues)) && input.estimate != []
      ensures Now() == if Saves(config, old(Now()), input) then Save(config, old(Now()), input) else old(Now())
    {
      SensibleShape(Now(), input);
      hide AddFrame;
      hide NewFactors;
      hide GpsFactors;
      hide Inv;
      hide Sensible;
      hide AfterGps;
      hide Far;
      var saves := SaveFrame(input.guess);
      if !saves { return; }
      OptimizeGraph(input);
      gps := gps.(covariance := input.covariance);
      AddKeyFrame(graph.estimate[|graph.estimate| - 1]);
    }

    method CorrectPose(i: nat)
      requires i < |graph.estimate| == |frames.poses3D| == |frames.poses6D|
      modifies this`frames, this`globalPath
      ensures var pose, fr := graph.estimate[i], old(frames);
        && frames == fr.(poses3D := fr.poses3D[i := fr.poses3D[i].(x := pose.x, y := pose.y, z := pose.z)],
                         poses6D := fr.poses6D[i := fr.poses6D[i].(pose := pose)])
        && globalPath == old(globalPath) + [PathPose(pose, fr.poses6D[i].time)]
    {
      var pose := graph.estimate[i];
      frames := frames.(poses3D := frames.poses3D[i := frames.poses3D[i].(x := pose.x, y := pose.y, z := pose.z)]);
      frames := frames.(poses6D := frames.poses6D[i := frames.poses6D[i].(pose := pose)]);
      UpdatePath(frames.poses6D[i]);
    }

    /** After a closed loop: no cached cloud survives, every key pose takes the optimiser's
        estimate, and the path is drawn anew. */
    method CorrectPoses()
      requires Shaped(frames) && |graph.estimate| == |frames.poses3D|
      modifies this`frames, this`globalPath, this`fusion, this`graph
      ensures Now() == Correct(old(Now()))
    {
      if frames.poses3D == [] || !graph.closed { return; }
      fusion := fusion.(cache := map[]);
      globalPath := [];
      ghost var was, fr := frames, Corrected(frames, graph.estimate);
      AllReplaced(fr.poses3D, was.poses3D);
      AllReplaced(fr.poses6D, was.poses6D);
      for i := 0 to |graph.estimate|
        modifies this`frames, this`globalPath
        invariant frames == was.(poses3D := Partly(fr.poses3D, was.poses3D, i),
                                 poses6D := Partly(fr.poses6D, was.poses6D, i))
        invariant globalPath == PathOf(fr.poses6D[..i])
      {
        hide Corrected;
        hide Partly;
        CorrectedAt(was, graph.estimate, i);
        Replace(fr.poses3D, was.poses3D, i);
        Replace(fr.poses6D, was.poses6D, i);
        PathAppend(fr.poses6D, i);
        CorrectPose(i);
      }
      assert fr.poses6D[..|fr.poses6D|] == fr.poses6D;
      graph := graph.(closed := false);
    }

    /** Local map, matching, key frame, correction. */
    method MapScan(input: Input)
      requires Inv(config, Now()) && Sensible(Now(), input) && gtSAMgraph == [] && initialEstimate == {}
      modifies this
      ensures gtSAMgraph == [] && initialEstimate == {} && Now() == Mapped(config, old(Now()), input)
    {
      hide Inv;
      hide Localize;
      hide Sensible;
      hide Save;
      hide Correct;
      hide Extended;
      hide Far;
      hide Chosen;
      ghost var found := Localize(config, Now(), input);
      LocalizeFacts(config, Now(), input);
      SavedShape(config, found, input);
      assert Saves(config, found, input) <==> Saves(config, Now(), input);
      hide Saves;
      ExtractSurroundingKeyFrames(input);
      SaveKeyFramesAndFactor(input);
      CorrectPoses();
    }

    /** The locked part of the handler, if the last scan is old enough. */
    method LaserCloudInfoHandler(input: Input)
      requires Valid() && Offered(Now(), Handle(input))
      modifies this
      ensures Possible(old(Now()), Handle(input))
      ensures Valid() && Now() == Apply(config, old(Now()), Handle(input))
    {
      OfferedIsPossible(config, Now(), Handle(input));
      hide Inv;
      hide Sensible;
      hide Mapped;
      hide Detect;
      HandleKeeps(config, Now(), input);
      if scan.time - scan.lastProcessed < config.interval { return; }
      Starts(config, Now(), input);
      scan := scan.(lastProcessed := scan.time);
      MapScan(input);
    }

    /** The times so far with the new ones, cut to the last five. */
    method KeepLatest(data: seq<real>) returns (info: seq<(real, real)>)
      ensures info == Received(loops.info, data)
    {
      if |data| != 2 { return loops.info; }
      ghost var all := loops.info + [(data[0], data[1])];
      info := loops.info + [(data[0], data[1])];
      while |info| > LOOP_INFO_LIMIT
        invariant |info| <= |all| && info == all[|all| - |info|..]
        invariant |info| >= LOOP_INFO_LIMIT || |info| == |all|
      {
        info := info[1..];
      }
    }

    /** Times of a loop that another program found; the last five are kept. */
    method LoopInfoHandler(data: seq<real>)
      requires Valid()
      modifies this`loops
      ensures Valid() && Now() == Apply(config, old(Now()), LoopInfo(data))
    {
      LoopStepKeeps(config, Now(), LoopInfo(data));
      hide Inv;
      hide Process;
      hide Detect;
      hide Received;
      var info := KeepLatest(data);
      loops := loops.(info := info);
    }

    /** The thread wakes; without key frames it goes back to sleep. */
    method BeginLoopClosure()
      requires Valid() && loops.stage.Idle?
      modifies this`loops
      ensures Valid() && Now() == Apply(config, old(Now()), LoopBegin)
      ensures loops == old(loops).(stage := if frames.poses3D == [] then Idle else Ready)
    {
      LoopStepKeeps(config, Now(), LoopBegin);
      hide Inv;
      hide Process;
      hide Detect;
      if frames.poses3D != [] { loops := loops.(stage := Ready); }
    }

    /** Under the mutex: the thread copies the key poses. */
    method CopyKeyPoses()
      requires Valid() && loops.stage.Ready?
      modifies this`loops
      ensures Valid() && Now() == Apply(config, old(Now()), LoopCopy)
      ensures loops.copy3D == frames.poses3D && loops.copy6D == frames.poses6D
    {
      LoopStepKeeps(config, Now(), LoopCopy);
      hide Inv;
      hide Process;
      hide Detect;
      loops := loops.(copy3D := frames.poses3D, copy6D := frames.poses6D, stage := Copied);
    }

    method FindKeyAtOrAfter(time: real) returns (key: int)
      requires loops.copy6D != []
      ensures key == KeyAtOrAfter(loops.copy6D, time)
    {
      key := |loops.copy6D| - 1;
      var i := |loops.copy6D| - 1;
      while i >= 0
        invariant -1 <= i < |loops.copy6D|
        invariant forall k :: i < k < |loops.copy6D| ==> loops.copy6D[k].time >= time
        invariant key == if i == |loops.copy6D| - 1 then |loops.copy6D| - 1 else loops.copy6D[i + 1].intensity
      {
        if loops.copy6D[i].time >= time {
          key := loops.copy6D[i].intensity;
        } else {
          break;
        }
        i := i - 1;
      }
      TailIs(loops.copy6D, time, i + 1);
    }

    method FindKeyAtOrBefore(time: real) returns (key: int)
      ensures key == KeyAtOrBefore(loops.copy6D, time)
    {
      key := 0;
      var i := 0;
      while i < |loops.copy6D|
        invariant 0 <= i <= |loops.copy6D|
        invariant forall k :: 0 <= k < i ==> loops.copy6D[k].time <= time
        invariant key == if i == 0 then 0 else loops.copy6D[i - 1].intensity
      {
        if loops.copy6D[i].time <= time {
          key := loops.copy6D[i].intensity;
        } else {
          break;
        }
        i := i + 1;
      }
      HeadIs(loops.copy6D, time, i);
    }

    method DetectLoopClosureExternal() returns (pair: Option<(int, int)>)
      modifies this`loops
      ensures pair == External(config, old(loops))
      ensures loops == old(loops).(info := if old(loops).info == [] then [] else old(loops).info[1..])
    {
      hide KeyAtOrAfter;
      hide KeyAtOrBefore;
      if loops.info == [] { return None; }
      var timeCur, timePre := loops.info[0].0, loops.info[0].1;
      loops := loops.(info := loops.info[1..]);
      if AbsReal(timeCur - timePre) < config.timeDiff || |loops.copy6D| < 2 { return None; }
      var cur := FindKeyAtOrAfter(timeCur);
      var pre := FindKeyAtOrBefore(timePre);
      if cur == pre || cur in loops.container { return None; }
      return Some((cur, pre));
    }

    method DetectLoopClosureDistance(near: seq<nat>) returns (pair: Option<(int, int)>)
      requires loops.copy3D != [] && Found(loops, near)
      ensures pair == ByDistance(config, loops, near, scan.time)
    {
      var cur := |loops.copy3D| - 1;
      if cur in loops.container { return None; }
      var pre: int := -1;
      var i := 0;
      while i < |near|
        invariant 0 <= i <= |near| && pre == -1
        invariant FirstOld(config, loops.copy6D, near, scan.time) == FirstOld(config, loops.copy6D, near[i..], scan.time)
      {
        var id := near[i];
        if AbsReal(loops.copy6D[id].time - scan.time) > config.timeDiff {
          pre := id;
          break;
        }
        i := i + 1;
      }
      if pre == -1 || cur == pre { return None; }
      return Some((cur, pre));
    }

    /** The thread looks for a pair, first where another program points, then by distance. */
    method DetectLoopClosure(near: seq<nat>)
      requires Valid() && Offered(Now(), LoopDetect(near))
      modifies this`loops
      ensures Possible(old(Now()), LoopDetect(near))
      ensures Valid() && Now() == Apply(config, old(Now()), LoopDetect(near))
    {
      hide Inv;
      hide Process;
      hide External;
      hide ByDistance;
      hide Sensible;
      hide Push;
      hide Fits;
      hide GpsReceived;
      OfferedIsPossible(config, Now(), LoopDetect(near));
      LoopStepKeeps(config, Now(), LoopDetect(near));
      ghost var was := loops;
      var pair := DetectLoopClosureExternal();
      if pair.None? {
        SameByDistance(config, was, loops.info, near, scan.time);
        pair := DetectLoopClosureDistance(near);
      }
      if pair.Some? && pair.value.0 >= 0 && pair.value.1 >= 0 {
        loops := loops.(stage := Detected(pair.value.0, pair.value.1));
      } else {
        loops := loops.(stage := Idle);
      }
    }

    /** Under the mutex: a constraint that fits goes to the three queues. */
    method AddConstraint(a: Alignment)
      requires Valid() && loops.stage.Detected?
      modifies this`loops, this`queues
      ensures Possible(old(Now()), LoopAlign(a))
      ensures Valid() && Now() == Apply(config, old(Now()), LoopAlign(a))
    {
      hide Inv;
      hide Process;
      hide Detect;
      OfferedIsPossible(config, Now(), LoopAlign(a));
      LoopStepKeeps(config, Now(), LoopAlign(a));
      if !a.done || a.score > config.fitness {
        loops := loops.(stage := Idle);
        return;
      }
      var cur, pre := loops.stage.cur, loops.stage.pre;
      var tWrong := loops.copy6D[cur].pose;
      var tCorrect := config.compose(a.motion, tWrong);
      var between := Relative(tCorrect, loops.copy6D[pre].pose);
      queues := queues.(index := queues.index + [(cur, pre)]);
      queues := queues.(pose := queues.pose + [between]);
      queues := queues.(noise := queues.noise + [a.score]);
      loops := loops.(stage := Pushed(cur, pre), pushed := loops.pushed + [Loop(cur, pre, between, a.score)]);
    }

    /** The thread notes the pair, outside the mutex. */
    method RecordConstraint()
      requires Valid() && loops.stage.Pushed?
      modifies this`loops
      ensures Valid() && Now() == Apply(config, old(Now()), LoopRecord)
      ensures var l := old(loops); loops == l.(container := l.container[l.stage.cur := l.stage.pre], stage := Idle)
    {
      hide Inv;
      hide Process;
      hide Detect;
      LoopStepKeeps(config, Now(), LoopRecord);
      loops := loops.(container := loops.container[loops.stage.cur := loops.stage.pre], stage := Idle);
    }
  }
}
