/** The loop-closure thread of the map back end keeps its invariant too, and what therefore holds in
    every run. */
module MapRuns {
  import opened Basics
  import opened MapOptimization

  // ---------------------------------------------------------------------------
  // The loop thread keeps the invariant

  lemma {:induction false} TailMeaning(poses: seq<KeyPose>, t: real)
    ensures var n := TailFrom(poses, t);
      && (forall k :: n <= k < |poses| ==> poses[k].time >= t)
      && (n > 0 ==> poses[n - 1].time < t)
  {
    if poses != [] && poses[|poses| - 1].time >= t { TailMeaning(poses[..|poses| - 1], t); }
  }

  lemma {:induction false} HeadMeaning(poses: seq<KeyPose>, t: real)
    ensures var n := HeadTo(poses, t);
      && (forall k :: 0 <= k < n ==> poses[k].time <= t)
      && (n < |poses| ==> poses[n].time > t)
  {
    if poses != [] && poses[0].time <= t { HeadMeaning(poses[1..], t); }
  }

  predicate Chronological(poses: seq<KeyPose>) {
    && (forall i :: 0 <= i < |poses| ==> poses[i].intensity == i)
    && (forall i, j :: 0 <= i <= j < |poses| ==> poses[i].time <= poses[j].time)
  }

  lemma {:induction false} Spaced(fr: Frames, interval: real, i: nat, j: nat)
    requires FramesOk(fr, interval) && interval >= 0.0 && i <= j < |fr.poses6D|
    ensures fr.poses6D[i].time <= fr.poses6D[j].time
    decreases j
  {
    if i < j { Spaced(fr, interval, i, j - 1); }
  }

  lemma CopyIsChronological(c: Config, st: State)
    requires c.Valid() && Inv(c, st)
    ensures Chronological(st.loops.copy6D)
  {
    forall i, j | 0 <= i <= j < |st.loops.copy6D| ensures st.loops.copy6D[i].time <= st.loops.copy6D[j].time {
      Spaced(st.frames, c.interval, i, j);
    }
  }

  /** The times another program sends select the earliest key pose at or after the one, or the
      newest of all, and the latest at or before the other, or the oldest of all. */
  lemma ExternalMeaning(poses: seq<KeyPose>, after: real, before: real)
    requires poses != [] && Chronological(poses)
    ensures var cur, pre := KeyAtOrAfter(poses, after), KeyAtOrBefore(poses, before);
      && 0 <= cur < |poses| && 0 <= pre < |poses|
      && (forall k :: 0 <= k < cur ==> poses[k].time < after)
      && (poses[cur].time < after ==> cur == |poses| - 1)
      && (forall k :: pre < k < |poses| ==> poses[k].time > before)
      && (poses[pre].time > before ==> pre == 0)
  {
    TailMeaning(poses, after);
    HeadMeaning(poses, before);
  }

  /** The old key pose is the first the search found whose time is far from the scan's. */
  lemma {:induction false} FirstOldMeaning(c: Config, poses: seq<KeyPose>, near: seq<nat>, now: real)
    requires forall k :: 0 <= k < |near| ==> near[k] < |poses|
    ensures var pre := FirstOld(c, poses, near, now);
      match pre
      case None => forall k :: 0 <= k < |near| ==> AbsReal(poses[near[k]].time - now) <= c.timeDiff
      case Some(id) => (
        && id < |poses| && AbsReal(poses[id].time - now) > c.timeDiff
        && exists k :: 0 <= k < |near| && near[k] == id && Before(c, poses, near, k, now))
  {
    if near != [] && AbsReal(poses[near[0]].time - now) <= c.timeDiff {
      FirstOldMeaning(c, poses, near[1..], now);
      var rest := FirstOld(c, poses, near[1..], now);
      if rest.Some? {
        var k :| 0 <= k < |near| - 1 && near[1..][k] == rest.value && Before(c, poses, near[1..], k, now);
        assert forall j :: 0 < j <= k ==> near[j] == near[1..][j - 1];
        assert near[k + 1] == rest.value && Before(c, poses, near, k + 1, now);
      }
    } else if near != [] {
      assert Before(c, poses, near, 0, now);
    }
  }

  /** The first `n` found are close in time. */
  predicate Before(c: Config, poses: seq<KeyPose>, near: seq<nat>, n: nat, now: real)
    requires n <= |near| && forall k :: 0 <= k < |near| ==> near[k] < |poses|
  {
    forall j :: 0 <= j < n ==> AbsReal(poses[near[j]].time - now) <= c.timeDiff
  }

  /** A detected pair is of two different copied key poses, the first no source so far. */
  predicate Usable(l: LoopThread, pair: (int, int)) {
    && 0 <= pair.0 < |l.copy6D| && 0 <= pair.1 < |l.copy6D|
    && pair.0 != pair.1 && pair.0 !in l.container
  }

  lemma ExternalUsable(c: Config, l: LoopThread)
    requires Chronological(l.copy6D) && External(c, l).Some?
    ensures Usable(l, External(c, l).value)
  {
    ExternalMeaning(l.copy6D, l.info[0].0, l.info[0].1);
    hide KeyAtOrAfter;
    hide KeyAtOrBefore;
    hide Chronological;
  }

  lemma DistanceUsable(c: Config, l: LoopThread, near: seq<nat>, now: real)
    requires l.copy3D != [] && |l.copy3D| == |l.copy6D| && Found(l, near) && ByDistance(c, l, near, now).Some?
    ensures Usable(l, ByDistance(c, l, near, now).value)
  {
    FirstOldMeaning(c, l.copy6D, near, now);
    hide FirstOld;
  }

  lemma DetectKeeps(c: Config, st: State, near: seq<nat>)
    requires c.Valid() && Inv(c, st) && Possible(st, LoopDetect(near))
    ensures LoopOk(Detect(c, st.loops, near, st.scan.time), st.frames)
  {
    CopyIsChronological(c, st);
    hide CacheOk;
    hide GraphOk;
    hide HandedOver;
    hide FramesOk;
    hide Sound;
    hide Chronological;
    if External(c, st.loops).Some? {
      ExternalUsable(c, st.loops);
    } else if ByDistance(c, st.loops, near, st.scan.time).Some? {
      DistanceUsable(c, st.loops, near, st.scan.time);
    }
    hide External;
    hide ByDistance;
  }

  lemma PushKeeps(c: Config, st: State, a: Alignment)
    requires HandedOver(st) && LoopOk(st.loops, st.frames) && CanAlign(st.loops)
    ensures HandedOver(Push(c, st, a)) && LoopOk(Push(c, st, a).loops, st.frames)
  {
    var l, cur := st.loops, st.loops.stage.cur;
    var next := Push(c, st, a);
    assert next.loops.pushed == LoopFactors(st.graph.factors) + Constraints(next.queues) by {
      assert Constraints(next.queues) == Constraints(st.queues) + [next.loops.pushed[|l.pushed|]];
    }
  }

  lemma RecordKeeps(l: LoopThread, fr: Frames)
    requires LoopOk(l, fr) && l.stage.Pushed?
    ensures LoopOk(l.(container := l.container[l.stage.cur := l.stage.pre], stage := Idle), fr)
  {}

  lemma LoopStepKeeps(c: Config, st: State, ev: Event)
    requires c.Valid() && Inv(c, st) && Possible(st, ev) && !ev.Handle? && !ev.Receive? && !ev.GpsArrives?
    ensures Inv(c, Apply(c, st, ev))
  {
    match ev
    case LoopDetect(near) =>
      DetectKeeps(c, st, near);
    case LoopAlign(a) =>
      if Fits(c, a) { PushKeeps(c, st, a); }
    case LoopRecord =>
      RecordKeeps(st.loops, st.frames);
    case LoopInfo(_) =>
    case LoopBegin =>
    case LoopCopy =>
  }

  lemma ArrivedKeeps(c: Config, st: State, time: real, corner: Cloud, surf: Cloud)
    requires Inv(c, st)
    ensures Inv(c, Arrived(st, time, corner, surf))
  {
    hide CacheOk;
    hide LoopOk;
    hide GraphOk;
    hide LoopFactors;
    hide Constraints;
  }

  lemma GpsReceivedKeeps(c: Config, st: State, m: GpsMessage)
    requires Inv(c, st)
    ensures Inv(c, GpsReceived(c, st, m))
  {
    hide CacheOk;
    hide LoopOk;
    hide GraphOk;
    hide FramesOk;
    hide LoopFactors;
    hide Constraints;
    hide Fixes;
  }

  lemma InitialKeeps(c: Config)
    ensures Inv(c, INITIAL)
  {
    assert FramesOk(INITIAL.frames, c.interval) && LoopOk(INITIAL.loops, INITIAL.frames);
    hide FramesOk;
    hide LoopOk;
    assert MotionsOk(Motions([]), 0);
    hide MotionsOk;
    assert GpsOk(INITIAL.gps, [], INITIAL.frames) && GraphOk(INITIAL.graph, INITIAL.frames);
    hide GpsOk;
    hide GraphOk;
    hide Moved;
  }

  lemma StepKeeps(c: Config, st: State, ev: Event)
    requires c.Valid() && Inv(c, st) && Possible(st, ev)
    ensures Inv(c, Apply(c, st, ev))
  {
    if ev.Handle? {
      HandleKeeps(c, st, ev.input);
    } else if ev.Receive? {
      ArrivedKeeps(c, st, ev.time, ev.corner, ev.surf);
    } else if ev.GpsArrives? {
      GpsReceivedKeeps(c, st, ev.message);
    } else {
      LoopStepKeeps(c, st, ev);
    }
  }

  /** Every interleaving of the handler and the loop thread keeps the invariant. */
  lemma {:induction false} RunKeeps(c: Config, evs: seq<Event>)
    requires c.Valid()
    ensures Inv(c, Run(c, INITIAL, evs))
    decreases |evs|
  {
    if evs == [] {
      InitialKeeps(c);
    } else {
      RunKeeps(c, evs[..|evs| - 1]);
      var before, ev := Run(c, INITIAL, evs[..|evs| - 1]), evs[|evs| - 1];
      if Possible(before, ev) { StepKeeps(c, before, ev); }
      hide Inv;
      hide Apply;
    }
  }

  // ---------------------------------------------------------------------------
  // What holds in every run

  /** Every loop factor joins two different existing key frames, and no key frame is the source
      of two of them in the whole run. */
  lemma LoopFactorsAreSound(c: Config, evs: seq<Event>)
    requires c.Valid()
    ensures var st := Run(c, INITIAL, evs);
      Sound(LoopFactors(st.graph.factors), |st.frames.poses6D|)
  {
    RunKeeps(c, evs);
    var st := Run(c, INITIAL, evs);
    var added := LoopFactors(st.graph.factors);
    assert forall i :: 0 <= i < |added| ==> added[i] == st.loops.pushed[i];
  }

  /** In every run no two GPS positions bind one key frame, each is from the time of its key frame,
      and each lies five metres or more from the one before it. */
  lemma {:induction false} GpsPositionsAreSpaced(c: Config, evs: seq<Event>)
    requires c.Valid()
    ensures var st := Run(c, INITIAL, evs); GpsSpaced(Fixes(st.graph.factors), st.frames)
  {
    RunKeeps(c, evs);
    hide Run;
    hide LoopOk;
    hide CacheOk;
    hide HandedOver;
  }

  /** The constraints a run hands over: one for each alignment that fits, from the copied pose of the
      newer key frame, moved as the alignment says, to the copied pose of the older one. */
  function Handed(c: Config, evs: seq<Event>): seq<Factor>
    decreases |evs|
  {
    if evs == [] then []
    else
      var front, ev := evs[..|evs| - 1], evs[|evs| - 1];
      var st := Run(c, INITIAL, front);
      if ev.LoopAlign? && Possible(st, ev) && ev.aligned.done && ev.aligned.score <= c.fitness then
        var cur, pre := st.loops.stage.cur, st.loops.stage.pre;
        var moved := c.compose(ev.aligned.motion, st.loops.copy6D[cur].pose);
        Handed(c, front) + [Loop(cur, pre, Relative(moved, st.loops.copy6D[pre].pose), ev.aligned.score)]
      else Handed(c, front)
  }

  lemma {:induction false} PushedAreHanded(c: Config, evs: seq<Event>)
    ensures Run(c, INITIAL, evs).loops.pushed == Handed(c, evs)
    decreases |evs|
  {
    if evs != [] {
      PushedAreHanded(c, evs[..|evs| - 1]);
      var before, ev := Run(c, INITIAL, evs[..|evs| - 1]), evs[|evs| - 1];
      if ev.Handle? && Possible(before, ev) { ProcessLeavesLoops(c, before, ev.input); }
      hide Sensible;
      hide Process;
    }
  }

  lemma ProcessLeavesLoops(c: Config, st: State, input: Input)
    requires Sensible(st, input)
    ensures Process(c, st, input).loops == st.loops
  {
    hide Names;
    hide Extract;
  }

  /** Every constraint handed over in a run is a factor of the graph or still queued, exactly
      once and in order, and the three queues agree in length. */
  lemma {:induction false} EveryConstraintOnce(c: Config, evs: seq<Event>)
    requires c.Valid()
    ensures var st := Run(c, INITIAL, evs);
      && |st.queues.index| == |st.queues.pose| == |st.queues.noise|
      && Handed(c, evs) == LoopFactors(st.graph.factors) + Constraints(st.queues)
  {
    RunKeeps(c, evs);
    PushedAreHanded(c, evs);
    hide Run;
    hide LoopOk;
    hide CacheOk;
  }

  /** At every handler boundary: one length n for both pose arrays, both cloud arrays, the path
      and the optimiser's variables 0..n-1; each intensity its index; each path entry its pose. */
  lemma {:induction false} KeyFramesAreConsistent(c: Config, evs: seq<Event>)
    requires c.Valid()
    ensures var st := Run(c, INITIAL, evs);
      var n := |st.frames.poses6D|;
      && |st.frames.poses3D| == |st.frames.corner| == |st.frames.surf| == |st.path| == |st.graph.estimate| == n
      && st.graph.vars == Keys(n) && !st.graph.closed
      && (forall i :: 0 <= i < n ==> st.frames.poses3D[i].intensity == st.frames.poses6D[i].intensity == i)
      && (forall i :: 0 <= i < n ==> st.path[i] == PathPose(st.frames.poses6D[i].pose, st.frames.poses6D[i].time))
  {
    RunKeeps(c, evs);
    hide Run;
    hide LoopOk;
    hide CacheOk;
    hide HandedOver;
  }

  /** In every run the local map a scan is matched against is the one built without a cache. */
  lemma {:induction false} LocalMapNeedsNoCache(c: Config, evs: seq<Event>, input: Input)
    requires c.Valid() && Sensible(Run(c, INITIAL, evs), input) && Run(c, INITIAL, evs).frames.poses3D != []
    ensures var st := Run(c, INITIAL, evs);
      var found := Localize(c, st, input);
      (found.fusion.corner, found.fusion.surf) == Direct(c, st.frames, Chosen(st, input.near))
  {
    RunKeeps(c, evs);
    var st := Run(c, INITIAL, evs);
    hide Run;
    hide LoopOk;
    hide HandedOver;
    hide GraphOk;
    ExtractIsDirect(c, st.frames, st.fusion, Chosen(st, input.near));
    hide Extract;
    hide Direct;
  }

  /** A loop or a GPS position comes in with a key frame. */
  predicate Closes(c: Config, st: State, input: Input)
    requires Shaped(st.frames)
  {
    Saves(c, st, input) && (st.queues.index != [] || GpsFactors(c, st, input.guess) != [])
  }

  /** After a closed loop every key pose is the optimiser's, and nothing is cached; otherwise
      no earlier key pose moves. */
  lemma ClosedLoopMovesEveryPose(c: Config, st: State, input: Input)
    requires Inv(c, st) && Sensible(st, input)
    ensures var next := Mapped(c, st, input);
      if Closes(c, st, input) then
        && |next.frames.poses6D| == |input.estimate| && next.fusion.cache == map[]
        && forall i :: 0 <= i < |input.estimate| ==> next.frames.poses6D[i].pose == input.estimate[i]
      else st.frames.poses6D <= next.frames.poses6D && st.frames.poses3D <= next.frames.poses3D
  {
    hide Extract;
    hide CacheOk;
    hide LoopOk;
    hide HandedOver;
    hide FramesOk;
    hide Names;
  }

  /** What is offered to a thread at a step, apart from what the other thread has done. */
  predicate Offered(st: State, ev: Event) {
    match ev
    case Receive(_, _, _) => true
    case GpsArrives(_) => true
    case Handle(input) => (
      && (forall k :: 0 <= k < |input.near| ==> input.near[k].nearest < |st.frames.poses3D|)
      && |input.estimate| == |st.frames.poses3D| + 1)
    case LoopInfo(_) => true
    case LoopBegin => st.loops.stage.Idle?
    case LoopCopy => st.loops.stage.Ready?
    case LoopDetect(near) => st.loops.stage.Copied? && Found(st.loops, near)
    case LoopAlign(_) => st.loops.stage.Detected?
    case LoopRecord => st.loops.stage.Pushed?
  }

  lemma OfferedIsPossible(c: Config, st: State, ev: Event)
    requires Inv(c, st)
    ensures Possible(st, ev) <==> Offered(st, ev)
  {
    if ev.Handle? && Offered(st, ev) { ChosenNames(c, st, ev.input.near); }
    hide Names;
    hide CacheOk;
    hide HandedOver;
  }

  /** No step is ever refused: the array accesses each step makes are within bounds. */
  lemma {:induction false} NoStepIsRefused(c: Config, evs: seq<Event>, ev: Event)
    requires c.Valid()
    ensures Possible(Run(c, INITIAL, evs), ev) <==> Offered(Run(c, INITIAL, evs), ev)
  {
    RunKeeps(c, evs);
    OfferedIsPossible(c, Run(c, INITIAL, evs), ev);
    hide Possible;
    hide Offered;
    hide Inv;
  }

  /** A pair the loop thread finds is always taken up: no key is negative. */
  lemma FoundPairsAreTaken(c: Config, evs: seq<Event>, near: seq<nat>)
    requires c.Valid() && Possible(Run(c, INITIAL, evs), LoopDetect(near))
    ensures var l := Run(c, INITIAL, evs).loops;
      var now := Run(c, INITIAL, evs).scan.time;
      Detect(c, l, near, now).stage.Idle? <==> External(c, l).None? && ByDistance(c, l, near, now).None?
  {
    RunKeeps(c, evs);
    var st := Run(c, INITIAL, evs);
    hide Run;
    CopyIsChronological(c, st);
    hide CacheOk;
    hide GraphOk;
    hide HandedOver;
    hide FramesOk;
    hide Sound;
    hide Chronological;
    if External(c, st.loops).Some? {
      ExternalUsable(c, st.loops);
    } else if ByDistance(c, st.loops, near, st.scan.time).Some? {
      DistanceUsable(c, st.loops, near, st.scan.time);
    }
    hide External;
    hide ByDistance;
  }
}
