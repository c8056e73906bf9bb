/** What single steps of the map back end do, on the state they find and the one they leave: a scan
    handled from its arrival to the corrected poses, and the search of the loop-closure thread. */
module MapSteps {
  import opened Basics
  import opened MapOptimization
  import opened MapRuns

  // ---------------------------------------------------------------------------
  // What one scan does

  /** The scan at hand is taken up: enough time has passed since the last one that was. */
  predicate TakenUp(c: Config, st: State) { st.scan.time - st.scan.lastProcessed >= c.interval }

  /** The scan brings no key frame: there is one, and since then it has not turned or moved by the
      thresholds, nor, with a LIVOX sensor, has a second passed. */
  predicate Still(c: Config, st: State, guess: Pose)
    requires Shaped(st.frames)
  {
    && st.frames.poses6D != []
    && var last := st.frames.poses6D[|st.frames.poses6D| - 1];
      var d := c.between(last.pose, guess);
      && (c.livox ==> st.scan.time - last.time <= 1.0)
      && -c.addAngle < d.roll < c.addAngle && -c.addAngle < d.pitch < c.addAngle && -c.addAngle < d.yaw < c.addAngle
      && c.addDistance > 0.0 && d.x * d.x + d.y * d.y + d.z * d.z < c.addDistance * c.addDistance
  }

  lemma StillIsNotSaved(c: Config, st: State, input: Input)
    requires Shaped(st.frames)
    ensures Saves(c, st, input) <==> !Still(c, st, input.guess)
  {}

  /** The state between the local map and the key frame. */
  function Located(c: Config, st: State, input: Input): State
    requires Sensible(st, input)
  {
    Localize(c, st.(scan := st.scan.(lastProcessed := st.scan.time)), input)
  }

  lemma ProcessIs(c: Config, st: State, input: Input)
    requires Sensible(st, input) && TakenUp(c, st)
    ensures var found := Located(c, st, input);
      && Sensible(found, input) && found.scan == st.scan.(lastProcessed := st.scan.time)
      && found.(fusion := st.fusion, scan := st.scan) == st
      && Shaped(found.frames) && Aligned(found.queues) && input.estimate != []
      && var saved := if Still(c, st, input.guess) then found else Save(c, found, input);
        Shaped(saved.frames) && |saved.graph.estimate| == |saved.frames.poses3D| && Process(c, st, input) == Correct(saved)
  {
    var started := st.(scan := st.scan.(lastProcessed := st.scan.time));
    assert Sensible(started, input);
    LocalizeFacts(c, started, input);
    StillIsNotSaved(c, st, input);
    assert Saves(c, started, input) <==> Saves(c, st, input);
    SavedShape(c, Localize(c, started, input), input);
    hide Sensible;
    hide Extract;
    hide Names;
    hide Still;
    hide Saves;
    hide Chosen;
    hide AddFrame;
    hide Extended;
    hide AfterGps;
    hide Correct;
  }

  /** Correction changes poses, path and cache only. */
  lemma CorrectIs(st: State)
    requires Shaped(st.frames) && |st.graph.estimate| == |st.frames.poses3D|
    ensures var r := Correct(st);
      && r.scan == st.scan && r.queues == st.queues && r.gps == st.gps && r.loops == st.loops
      && r.graph.factors == st.graph.factors && r.graph.vars == st.graph.vars && r.graph.estimate == st.graph.estimate
      && r.frames.corner == st.frames.corner && r.frames.surf == st.frames.surf
      && r.fusion.corner == st.fusion.corner && r.fusion.surf == st.fusion.surf
      && |r.frames.poses6D| == |st.frames.poses6D|
      && (forall i :: 0 <= i < |st.frames.poses6D| ==>
            r.frames.poses6D[i].time == st.frames.poses6D[i].time && r.frames.poses6D[i].intensity == st.frames.poses6D[i].intensity)
      && (!st.graph.closed ==> r == st)
  {
    hide PathOf;
  }

  /** A scan that comes too soon changes nothing, any other is taken up. One that is still changes
      only the local map; any other adds one key frame: its thinned clouds, its time, the
      optimiser's newest pose, and the variances of that. */
  lemma KeyFrameAdded(c: Config, st: State, input: Input)
    requires Inv(c, st) && Sensible(st, input)
    ensures !TakenUp(c, st) ==> Process(c, st, input) == st
    ensures TakenUp(c, st) ==> Process(c, st, input).scan == st.scan.(lastProcessed := st.scan.time)
    ensures TakenUp(c, st) && Still(c, st, input.guess) ==>
      Process(c, st, input) == st.(scan := Process(c, st, input).scan, fusion := Process(c, st, input).fusion)
    ensures TakenUp(c, st) && !Still(c, st, input.guess) ==>
      var n, next := |st.frames.poses6D|, Process(c, st, input);
      && |next.frames.poses6D| == n + 1 && next.queues == Queues([], [], []) && next.gps.covariance == input.covariance
      && next.frames.poses6D[n] == KeyPose(input.estimate[n], n, st.scan.time)
      && next.frames.corner == st.frames.corner + [c.sampleCorner(st.scan.corner)]
      && next.frames.surf == st.frames.surf + [c.sampleSurf(st.scan.surf)]
  {
    if TakenUp(c, st) {
      ProcessIs(c, st, input);
      NotClosed(c, st);
      var found := Located(c, st, input);
      hide Located;
      hide Inv;
      hide Process;
      hide Sensible;
      hide Still;
      hide Extended;
      hide AfterGps;
      if Still(c, st, input.guess) {
        CorrectIs(found);
      } else {
        CorrectIs(Save(c, found, input));
        NewestPose(c, found, input);
      }
      hide Correct;
    }
  }

  lemma NotClosed(c: Config, st: State)
    requires Inv(c, st)
    ensures Shaped(st.frames) && !st.graph.closed && |st.frames.poses6D| == |st.graph.estimate| == |st.frames.poses3D|
    ensures forall i :: 0 <= i < |st.frames.poses3D| ==> st.frames.poses3D[i].intensity == i
  {
    hide LoopOk;
    hide HandedOver;
    hide CacheOk;
    hide GpsOk;
    hide MotionsOk;
  }

  lemma NewestPose(c: Config, st: State, input: Input)
    requires Sensible(st, input) && Shaped(st.frames) && Aligned(st.queues) && input.estimate != []
    ensures var s, n := Save(c, st, input), |st.frames.poses6D|;
      && Shaped(s.frames) && |s.graph.estimate| == |s.frames.poses3D| && |s.frames.poses6D| == n + 1
      && Correct(s).frames.poses6D[n] == KeyPose(input.estimate[n], n, st.scan.time)
  {
    hide Names;
    hide Chosen;
    hide AfterGps;
    hide NewFactors;
    hide PathOf;
  }

  /** Such a scan adds exactly one motion: on the first key frame a prior at the matched pose, and
      later one from the pose of the last key frame, as it was before, to the matched pose. */
  lemma MotionAdded(c: Config, st: State, input: Input)
    requires Inv(c, st) && Sensible(st, input) && TakenUp(c, st) && !Still(c, st, input.guess)
    ensures var n := |st.frames.poses6D|;
      Motions(Process(c, st, input).graph.factors) == Motions(st.graph.factors) + [
        if n == 0 then Prior(0, input.guess)
        else Odometry(n - 1, n, Relative(st.frames.poses6D[n - 1].pose, input.guess))]
  {
    ProcessIs(c, st, input);
    NotClosed(c, st);
    assert MotionsOk(Motions(st.graph.factors), |st.frames.poses6D|);
    var found := Located(c, st, input);
    hide Located;
    hide Inv;
    hide Process;
    hide Sensible;
    hide Still;
    hide Motions;
    SaveMotions(c, found, input);
    CorrectIs(Save(c, found, input));
    hide Save;
    hide Correct;
  }

  /** In every run key frame 0 has the one prior, and each later one exactly one motion, from the key
      frame before it. */
  lemma EachKeyFrameIsBoundOnce(c: Config, evs: seq<Event>)
    requires c.Valid()
    ensures var st := Run(c, INITIAL, evs); MotionsOk(Motions(st.graph.factors), |st.frames.poses6D|)
  {
    hide Run;
    hide LoopOk;
    hide CacheOk;
    hide HandedOver;
    hide MotionsOk;
    RunKeeps(c, evs);
  }

  /** When the key frame brings a loop or a GPS position, every key pose becomes the optimiser's in all
      three records of it, and no moved cloud stays cached; otherwise no earlier key pose moves. */
  lemma LoopMovesEveryPose(c: Config, st: State, input: Input)
    requires Inv(c, st) && Sensible(st, input) && TakenUp(c, st) && !Still(c, st, input.guess)
    ensures var next := Process(c, st, input);
      if st.queues.index != [] || |Fixes(next.graph.factors)| > |Fixes(st.graph.factors)| then
        && |next.frames.poses6D| == |next.frames.poses3D| == |next.path| == |input.estimate| && next.fusion.cache == map[]
        && forall i :: 0 <= i < |input.estimate| ==>
             && next.frames.poses6D[i].pose == next.path[i].pose == input.estimate[i]
             && SamePlace(next.frames.poses3D[i], input.estimate[i])
      else st.frames.poses6D <= next.frames.poses6D && st.frames.poses3D <= next.frames.poses3D && st.path <= next.path
  {
    hide Inv;
    hide Process;
    hide Sensible;
    hide Still;
    hide Located;
    hide Fixes;
    ProcessIs(c, st, input);
    NotClosed(c, st);
    var found := Located(c, st, input);
    SaveFixes(c, found, input);
    SaveCloses(c, found, input);
    hide Save;
    CorrectIs(Save(c, found, input));
    if Save(c, found, input).graph.closed {
      CorrectMoves(Save(c, found, input));
    }
    hide Correct;
  }

  lemma SaveFixes(c: Config, st: State, input: Input)
    requires Shaped(st.frames) && Aligned(st.queues) && input.estimate != []
    ensures |Fixes(Save(c, st, input).graph.factors)| == |Fixes(st.graph.factors)| + |GpsFactors(c, st, input.guess)|
  {
    hide NewFactors;
    hide AfterGps;
    NewFixes(c, st, input);
    FixesAppend(st.graph.factors, NewFactors(c, st, input));
    var fs := GpsFactors(c, st, input.guess);
    if fs != [] { assert Fixes(fs[..0]) == []; }
    hide GpsAnswer;
  }

  lemma SaveCloses(c: Config, st: State, input: Input)
    requires Shaped(st.frames) && Aligned(st.queues) && input.estimate != [] && !st.graph.closed
    ensures var s := Save(c, st, input);
      && (s.graph.closed <==> st.queues.index != [] || GpsFactors(c, st, input.guess) != [])
      && s.graph.estimate == input.estimate && s.frames.poses3D != []
      && st.frames.poses6D <= s.frames.poses6D && st.frames.poses3D <= s.frames.poses3D && st.path <= s.path
  {
    hide NewFactors;
    hide AfterGps;
    hide GpsFactors;
  }

  lemma CorrectMoves(st: State)
    requires Shaped(st.frames) && |st.graph.estimate| == |st.frames.poses3D| && st.graph.closed && st.frames.poses3D != []
    ensures var r, e := Correct(st), st.graph.estimate;
      && |r.frames.poses6D| == |r.frames.poses3D| == |r.path| == |e| && r.fusion.cache == map[]
      && forall i :: 0 <= i < |e| ==>
           r.frames.poses6D[i].pose == r.path[i].pose == e[i] && SamePlace(r.frames.poses3D[i], e[i])
  {}

  /** A position binds the new key frame only if the parameters and the state ask for one: there are
      key frames five metres apart, and the newest is uncertain. It is then a queued one within 0.2 s
      of the scan, with small variances, not the origin, and five metres from the one used before;
      its height is the scan's when elevation is not used. It and all before it leave the queue; when
      none is found, all but the ones that are too new do, if one was looked for at all. */
  lemma FixMeaning(c: Config, st: State, input: Input)
    requires Inv(c, st) && Sensible(st, input) && TakenUp(c, st) && !Still(c, st, input.guess)
    ensures var next := Process(c, st, input);
      FixesChange(c, st, input.guess, Fixes(st.graph.factors), Fixes(next.graph.factors), next.gps)
  {
    hide Inv;
    hide Process;
    hide Sensible;
    hide Still;
    hide Located;
    hide Fixes;
    hide FixesChange;
    hide Save;
    hide Correct;
    ProcessIs(c, st, input);
    var found := Located(c, st, input);
    CorrectIs(Save(c, found, input));
    SavedFixes(c, found, input);
    SameChange(c, st, found, input.guess, Fixes(st.graph.factors), Fixes(Save(c, found, input).graph.factors),
      Save(c, found, input).gps);
  }

  predicate FixesChange(c: Config, st: State, guess: Pose, before: seq<Fix>, after: seq<Fix>, gps: GpsQueue) {
    var q, n := st.gps.queue, |st.gps.queue| - |gps.queue|;
    && 0 <= n && gps.queue == q[n..] && (forall k :: 0 <= k < n ==> q[k].time <= st.scan.time + 0.2)
    && if after == before then
         gps.last == st.gps.last && (n == 0 || gps.queue == [] || gps.queue[0].time > st.scan.time + 0.2)
       else
         && |after| == |before| + 1 && after[..|before|] == before && n > 0
         && FixOf(c, st, guess, after[|before|], q[n - 1]) && gps.last == after[|before|].at.place
  }

  lemma SameChange(c: Config, st: State, found: State, guess: Pose, before: seq<Fix>, after: seq<Fix>, gps: GpsQueue)
    requires found.frames == st.frames && found.gps == st.gps && found.scan.time == st.scan.time
    requires FixesChange(c, found, guess, before, after, gps)
    ensures FixesChange(c, st, guess, before, after, gps)
  {
    hide SquareDistance;
  }

  lemma SavedFixes(c: Config, st: State, input: Input)
    requires Shaped(st.frames) && Aligned(st.queues) && input.estimate != []
    ensures var next := Save(c, st, input);
      FixesChange(c, st, input.guess, Fixes(st.graph.factors), Fixes(next.graph.factors), next.gps)
  {
    hide NewFactors;
    hide Fixes;
    hide GpsFactors;
    hide FixOf;
    NewFixes(c, st, input);
    FixesAppend(st.graph.factors, NewFactors(c, st, input));
    GpsFactorOf(c, st, input.guess);
    hide AfterGps;
  }

  lemma GpsFactorOf(c: Config, st: State, guess: Pose)
    ensures var fs, gps := Fixes(GpsFactors(c, st, guess)), AfterGps(c, st, guess);
      var q, n := st.gps.queue, |st.gps.queue| - |gps.queue|;
      && 0 <= n && gps.queue == q[n..] && (forall k :: 0 <= k < n ==> q[k].time <= st.scan.time + 0.2)
      && if fs == [] then
           gps.last == st.gps.last && (n == 0 || gps.queue == [] || gps.queue[0].time > st.scan.time + 0.2)
         else |fs| == 1 && n > 0 && FixOf(c, st, guess, fs[0], q[n - 1]) && gps.last == fs[0].at.place
  {
    SearchMeaning(c, st.gps.queue, st.scan.time, guess, st.gps.last);
    hide Search;
    var fs := GpsFactors(c, st, guess);
    if fs != [] {
      assert Fixes(fs[..0]) == [];
      assert Fixes(fs) == [fs[0].fix];
    }
  }

  function SquareDistance(p: Point, q: Point): real {
    (p.x - q.x) * (p.x - q.x) + (p.y - q.y) * (p.y - q.y) + (p.z - q.z) * (p.z - q.z)
  }

  /** The position `m` may bind the new key frame, and `fix` is how. */
  predicate FixOf(c: Config, st: State, guess: Pose, fix: Fix, m: GpsMessage) {
    var n := |st.frames.poses3D|;
    && c.useGps && n > 0 && fix.key == n
    && SquareDistance(PlaceOf(st.frames.poses3D[0]), PlaceOf(st.frames.poses3D[n - 1])) >= 25.0
    && (st.gps.covariance.0 >= c.poseCovariance || st.gps.covariance.1 >= c.poseCovariance)
    && st.scan.time - 0.2 <= m.time <= st.scan.time + 0.2 && fix.at.time == m.time
    && m.noise.x <= c.gpsCovariance && m.noise.y <= c.gpsCovariance
    && (m.place.x >= 0.000001 || m.place.x <= -0.000001 || m.place.y >= 0.000001 || m.place.y <= -0.000001)
    && fix.at.place == Point(m.place.x, m.place.y, if c.useElevation then m.place.z else guess.z)
    && fix.at.noise == Vec3(Max(m.noise.x, 1.0), Max(m.noise.y, 1.0), if c.useElevation then Max(m.noise.z, 1.0) else 1.0)
    && SquareDistance(fix.at.place, st.gps.last) >= 25.0
  }

  /** When they ask for one, and some queued position may bind the key frame with none that is too
      new before it, one does. */
  lemma FixIsFound(c: Config, st: State, input: Input, k: nat)
    requires Inv(c, st) && Sensible(st, input) && TakenUp(c, st) && !Still(c, st, input.guess)
    requires k < |st.gps.queue| && forall j :: 0 <= j <= k ==> st.gps.queue[j].time <= st.scan.time + 0.2
    requires exists fix :: FixOf(c, st, input.guess, fix, st.gps.queue[k])
    ensures |Fixes(Process(c, st, input).graph.factors)| == |Fixes(st.graph.factors)| + 1
  {
    hide Inv;
    hide Process;
    hide Sensible;
    hide Still;
    hide Located;
    hide Fixes;
    hide Save;
    hide Correct;
    hide GpsFactors;
    hide FixOf;
    ProcessIs(c, st, input);
    var found := Located(c, st, input);
    var fix :| FixOf(c, st, input.guess, fix, st.gps.queue[k]);
    FixesLocated(c, st, found, input.guess, fix, st.gps.queue[k]);
    CorrectIs(Save(c, found, input));
    SaveFixes(c, found, input);
    FixIsTaken(c, found, input.guess, fix, k);
  }

  lemma FixesLocated(c: Config, st: State, found: State, guess: Pose, fix: Fix, m: GpsMessage)
    requires FixOf(c, st, guess, fix, m)
    requires found.frames == st.frames && found.gps == st.gps && found.scan.time == st.scan.time
    ensures FixOf(c, found, guess, fix, m)
  {}

  lemma FixIsTaken(c: Config, st: State, guess: Pose, fix: Fix, k: nat)
    requires k < |st.gps.queue| && forall j :: 0 <= j <= k ==> st.gps.queue[j].time <= st.scan.time + 0.2
    requires FixOf(c, st, guess, fix, st.gps.queue[k])
    ensures |GpsFactors(c, st, guess)| == 1
  {
    SearchMeaning(c, st.gps.queue, st.scan.time, guess, st.gps.last);
    var q := st.gps.queue;
    var (rest, found) := Search(c, q, st.scan.time, guess, st.gps.last);
    hide Search;
    assert Taken(c, q[k], st.scan.time, guess, st.gps.last);
    assert Wanted(c, st.frames, st.gps.covariance);
  }

  /** The points the local map is made of: each chosen one with the index of its nearest key pose,
      then the key poses under ten seconds old, newest first. */
  lemma ChosenMeaning(c: Config, st: State, near: seq<Near>)
    requires Inv(c, st) && forall k :: 0 <= k < |near| ==> near[k].nearest < |st.frames.poses3D|
    ensures Shaped(st.frames)
    ensures |near| <= |Chosen(st, near)| <= |near| + |st.frames.poses6D| == |near| + |st.frames.poses3D|
    ensures forall k :: 0 <= k < |near| ==>
      Chosen(st, near)[k] == KeyPoint(near[k].point.x, near[k].point.y, near[k].point.z, near[k].nearest)
    ensures IsRecent(st.frames, st.scan.time, Chosen(st, near)[|near|..])
  {
    hide Inv;
    hide Recent;
    hide IsRecent;
    NotClosed(c, st);
    RecentIs(st.frames, st.scan.time);
    RecentMeaning(st.frames, st.scan.time, |st.frames.poses6D|);
    assert Chosen(st, near)[|near|..] == Recent(st.frames, st.scan.time, |st.frames.poses6D|);
  }

  lemma RecentIs(fr: Frames, time: real)
    requires Shaped(fr)
    ensures IsRecent(fr, time, Recent(fr, time, |fr.poses6D|))
  {
    hide Recent;
    var n, r := |fr.poses6D|, Recent(fr, time, |fr.poses6D|);
    RecentMeaning(fr, time, n);
    forall k | 0 <= k < |r| ensures r[k] == fr.poses3D[n - 1 - k] && time - fr.poses6D[n - 1 - k].time < 10.0 {}
  }

  /** All the key poses under ten seconds old, newest first, up to the first that is older. */
  predicate IsRecent(fr: Frames, time: real, recent: seq<KeyPoint>)
    requires Shaped(fr)
  {
    var n := |fr.poses6D|;
    && |recent| <= n
    && (forall k :: 0 <= k < |recent| ==> recent[k] == fr.poses3D[n - 1 - k] && time - fr.poses6D[n - 1 - k].time < 10.0)
    && (|recent| < n ==> time - fr.poses6D[n - 1 - |recent|].time >= 10.0)
  }

  /** Every scan taken up is matched against the map of those points, built without a cache. */
  lemma ScanIsLocated(c: Config, st: State, input: Input)
    requires Inv(c, st) && Sensible(st, input) && TakenUp(c, st) && st.frames.poses3D != []
    ensures var next := Process(c, st, input);
      (next.fusion.corner, next.fusion.surf) == Direct(c, st.frames, Chosen(st, input.near))
  {
    ProcessIs(c, st, input);
    assert CacheOk(c, st.frames, st.fusion.cache);
    var started := st.(scan := st.scan.(lastProcessed := st.scan.time));
    assert Chosen(started, input.near) == Chosen(st, input.near);
    var found := Located(c, st, input);
    hide Inv;
    hide Process;
    hide Still;
    hide Chosen;
    hide Direct;
    ExtractIsDirect(c, st.frames, st.fusion, Chosen(st, input.near));
    hide Extract;
    hide CacheOk;
    hide AddFrame;
    hide Extended;
    hide AfterGps;
    if Still(c, st, input.guess) { CorrectIs(found); } else { CorrectIs(Save(c, found, input)); }
    hide Correct;
  }

  /** The point `p` of the local map lies within the radius of the newest key pose, and `q` is a point
      of one of its key frame's clouds, moved to the pose that key frame has now. */
  predicate Brings(c: Config, fr: Frames, clouds: seq<Cloud>, p: KeyPoint, q: Point)
    requires Shaped(fr) && |clouds| == |fr.poses6D| && fr.poses3D != [] && 0 <= p.intensity < |fr.poses6D|
  {
    var newest, cloud := fr.poses3D[|fr.poses3D| - 1], clouds[p.intensity];
    var dx, dy, dz := p.x - newest.x, p.y - newest.y, p.z - newest.z;
    && dx * dx + dy * dy + dz * dz <= c.searchRadius * c.searchRadius
    && exists i :: 0 <= i < |cloud| && q == c.move(fr.poses6D[p.intensity].pose, cloud[i])
  }

  lemma MovedPoints(c: Config, cloud: Cloud, pose: Pose, q: Point)
    ensures q in Moved(c, cloud, pose) <==> exists i :: 0 <= i < |cloud| && q == c.move(pose, cloud[i])
  {
    if i :| 0 <= i < |cloud| && q == c.move(pose, cloud[i]) { assert Moved(c, cloud, pose)[i] == q; }
  }

  lemma BringsOne(c: Config, fr: Frames, p: KeyPoint, q: Point)
    requires Shaped(fr) && fr.poses3D != [] && 0 <= p.intensity < |fr.poses6D|
    ensures Brings(c, fr, fr.corner, p, q) <==>
      Within(p, fr.poses3D[|fr.poses3D| - 1], c.searchRadius) && q in Clouds(c, fr, p.intensity).0
    ensures Brings(c, fr, fr.surf, p, q) <==>
      Within(p, fr.poses3D[|fr.poses3D| - 1], c.searchRadius) && q in Clouds(c, fr, p.intensity).1
  {
    MovedPoints(c, fr.corner[p.intensity], fr.poses6D[p.intensity].pose, q);
    MovedPoints(c, fr.surf[p.intensity], fr.poses6D[p.intensity].pose, q);
    hide Moved;
  }

  /** The map holds exactly the points its points bring. */
  lemma {:induction false} DirectMeaning(c: Config, fr: Frames, points: seq<KeyPoint>, q: Point)
    requires Shaped(fr) && fr.poses3D != [] && Names(fr, points)
    ensures q in Direct(c, fr, points).0 <==> exists k :: 0 <= k < |points| && Brings(c, fr, fr.corner, points[k], q)
    ensures q in Direct(c, fr, points).1 <==> exists k :: 0 <= k < |points| && Brings(c, fr, fr.surf, points[k], q)
    decreases |points|
  {
    hide Brings;
    hide Within;
    hide Clouds;
    if points != [] {
      var front, p := points[..|points| - 1], points[|points| - 1];
      assert forall k :: 0 <= k < |front| ==> points[k] == front[k];
      DirectMeaning(c, fr, front, q);
      BringsOne(c, fr, p, q);
    }
  }

  // ---------------------------------------------------------------------------
  // What the loop thread finds

  /** The key frames another program points at: the earliest at or after the first time, else the
      newest, and the latest at or before the second, else the oldest. */
  predicate PointedAt(c: Config, l: LoopThread, cur: nat, pre: nat) {
    && l.info != [] && |l.copy6D| >= 2 && cur < |l.copy6D| && pre < |l.copy6D|
    && (l.info[0].0 - l.info[0].1 >= c.timeDiff || l.info[0].1 - l.info[0].0 >= c.timeDiff)
    && (forall k :: 0 <= k < cur ==> l.copy6D[k].time < l.info[0].0)
    && (l.copy6D[cur].time < l.info[0].0 ==> cur == |l.copy6D| - 1)
    && (forall k :: pre < k < |l.copy6D| ==> l.copy6D[k].time > l.info[0].1)
    && (l.copy6D[pre].time > l.info[0].1 ==> pre == 0)
    && cur != pre && cur !in l.container
  }

  /** The newest key frame and the first of those near it that is far from the scan in time. */
  predicate NearInPlace(c: Config, l: LoopThread, near: seq<nat>, now: real, cur: nat, pre: nat)
    requires Found(l, near)
  {
    && cur == |l.copy6D| - 1 && cur !in l.container && pre != cur
    && exists k :: 0 <= k < |near| && near[k] == pre && FirstFar(c, l.copy6D, near, k, now)
  }

  predicate FirstFar(c: Config, poses: seq<KeyPose>, near: seq<nat>, k: nat, now: real)
    requires k < |near| && forall j :: 0 <= j < |near| ==> near[j] < |poses|
  {
    && (poses[near[k]].time - now > c.timeDiff || now - poses[near[k]].time > c.timeDiff)
    && forall j :: 0 <= j < k ==> -c.timeDiff <= poses[near[j]].time - now <= c.timeDiff
  }

  lemma ExternalIsPointedAt(c: Config, l: LoopThread)
    requires Chronological(l.copy6D)
    ensures match External(c, l)
      case Some((cur, pre)) => 0 <= cur && 0 <= pre && PointedAt(c, l, cur, pre)
      case None => forall cur: nat, pre: nat :: !PointedAt(c, l, cur, pre)
  {
    hide KeyAtOrAfter;
    hide KeyAtOrBefore;
    if l.info != [] && |l.copy6D| >= 2 {
      ExternalMeaning(l.copy6D, l.info[0].0, l.info[0].1);
      if External(c, l).None? {
        forall cur: nat, pre: nat ensures !PointedAt(c, l, cur, pre) {
          if PointedAt(c, l, cur, pre) { NotRefused(c, l, cur, pre); }
        }
      }
    }
  }

  /** What the two searches by time give is what is pointed at. */
  lemma NotRefused(c: Config, l: LoopThread, cur: nat, pre: nat)
    requires Chronological(l.copy6D) && PointedAt(c, l, cur, pre)
    ensures External(c, l) == Some((cur, pre))
  {
    var after, before := l.info[0].0, l.info[0].1;
    ExternalMeaning(l.copy6D, after, before);
    var a, b := KeyAtOrAfter(l.copy6D, after), KeyAtOrBefore(l.copy6D, before);
    hide KeyAtOrAfter;
    hide KeyAtOrBefore;
  }

  lemma DistanceIsNearInPlace(c: Config, l: LoopThread, near: seq<nat>, now: real)
    requires l.copy3D != [] && |l.copy3D| == |l.copy6D| && Found(l, near)
    ensures match ByDistance(c, l, near, now)
      case Some((cur, pre)) => 0 <= cur && 0 <= pre && NearInPlace(c, l, near, now, cur, pre)
      case None => forall cur: nat, pre: nat :: !NearInPlace(c, l, near, now, cur, pre)
  {
    FirstOldMeaning(c, l.copy6D, near, now);
    hide FirstOld;
    var pre := FirstOld(c, l.copy6D, near, now);
    if pre.Some? {
      var k :| 0 <= k < |near| && near[k] == pre.value && Before(c, l.copy6D, near, k, now);
      assert FirstFar(c, l.copy6D, near, k, now);
      forall j | 0 <= j < |near| && FirstFar(c, l.copy6D, near, j, now) ensures j == k {}
    }
  }

  /** The thread takes the pair another program points at if that is usable, and else the newest key
      frame with an old one near it; without either it rests. A message is used once. */
  lemma DetectMeaning(c: Config, st: State, near: seq<nat>, cur: nat, pre: nat)
    requires c.Valid() && Inv(c, st) && Possible(st, LoopDetect(near))
    ensures var l := st.loops;
      var next := Apply(c, st, LoopDetect(near)).loops;
      && next.info == (if l.info == [] then [] else l.info[1..])
      && (next.stage == Detected(cur, pre) <==>
            || PointedAt(c, l, cur, pre)
            || ((forall a: nat, b: nat :: !PointedAt(c, l, a, b)) && NearInPlace(c, l, near, st.scan.time, cur, pre)))
      && (next.stage.Detected? || next.stage.Idle?)
  {
    hide Inv;
    hide Chronological;
    hide External;
    hide ByDistance;
    hide PointedAt;
    hide NearInPlace;
    CopyIsChronological(c, st);
    CopyLengths(c, st);
    var l, now := st.loops, st.scan.time;
    ExternalIsPointedAt(c, l);
    DistanceIsNearInPlace(c, l, near, now);
    if PointedAt(c, l, cur, pre) { NotRefused(c, l, cur, pre); }
    if NearInPlace(c, l, near, now, cur, pre) { NearNotRefused(c, l, near, now, cur, pre); }
  }

  lemma CopyLengths(c: Config, st: State)
    requires Inv(c, st)
    ensures |st.loops.copy3D| == |st.loops.copy6D|
  {
    hide CacheOk;
    hide GraphOk;
    hide FramesOk;
    hide HandedOver;
    hide GpsOk;
  }

  lemma NearNotRefused(c: Config, l: LoopThread, near: seq<nat>, now: real, cur: nat, pre: nat)
    requires l.copy3D != [] && |l.copy3D| == |l.copy6D| && Found(l, near)
    requires NearInPlace(c, l, near, now, cur, pre)
    ensures ByDistance(c, l, near, now) == Some((cur, pre))
  {
    DistanceIsNearInPlace(c, l, near, now);
    FirstOldMeaning(c, l.copy6D, near, now);
    hide FirstOld;
    var k :| 0 <= k < |near| && near[k] == pre && FirstFar(c, l.copy6D, near, k, now);
    var j :| 0 <= j < |near| && near[j] == FirstOld(c, l.copy6D, near, now).value && Before(c, l.copy6D, near, j, now);
  }

  /** Two times are kept behind those that wait, and of six the oldest goes. */
  lemma ReceivedMeaning(info: seq<(real, real)>, data: seq<real>)
    ensures var kept := Received(info, data);
      if |data| != 2 then kept == info
      else
        var all := info + [(data[0], data[1])];
        |kept| == (if |all| < 5 then |all| else 5) && kept == all[|all| - |kept|..]
  {}
}
