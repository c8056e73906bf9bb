/** The IMU preintegration node of imuPreintegration.cpp: two queues over the same samples, an
    integrator for the optimiser and one that runs live, and an optimiser whose variables are
    recycled at one hundred. An integrator is kept as the bias it was reset with and the
    measurements it was fed, in order; the optimiser as its variables and factors. */
module ImuPreintegration {
  import opened Basics

  datatype Bias = Bias(accelerometer: Vec3, gyroscope: Vec3)

  datatype Sample = Sample(stamp: real, acceleration: Vec3, angularVelocity: Vec3)

  datatype Step = Step(acceleration: Vec3, angularVelocity: Vec3, dt: real)

  datatype Integrator = Integrator(bias: Bias, steps: seq<Step>)

  datatype Pose = Pose(position: Vec3, rotation: Vec3)

  /** Pose, velocity and bias at a key are added and used together, so one number stands for
      the three variables, and one prior for their three. The noise of the step between two biases
      grows with the time the measurements span. */
  datatype Factor =
    | Prior(key: int, pose: Pose)
    | ImuFactor(from: int, to: int, steps: seq<Step>)
    | BiasBetween(from: int, to: int, span: real)
    | PosePrior(key: int, pose: Pose, degenerate: bool)

  /** A correction: when, where, and how sure. */
  datatype Correction = Correction(t: real, pose: Pose, degenerate: bool)

  /** The optimiser's estimate of the newest variable. */
  datatype Estimate = Estimate(pose: Pose, velocity: Vec3, bias: Bias)

  const ZERO: Vec3 := Vec3(0.0, 0.0, 0.0)
  const ZERO_BIAS: Bias := Bias(ZERO, ZERO)
  const ZERO_POSE: Pose := Pose(ZERO, ZERO)
  const DEFAULT_DT: real := 0.002
  const KEY_LIMIT: nat := 100

  function Square(v: Vec3): real { v.x * v.x + v.y * v.y + v.z * v.z }

  /** Velocity above 30 or a bias above 1. */
  predicate Failure(e: Estimate) {
    || Square(e.velocity) > 900.0
    || Square(e.bias.accelerometer) > 1.0 || Square(e.bias.gyroscope) > 1.0
  }

  /** Time since the previous sample; without one, the default. */
  function Dt(stamp: real, last: real): real {
    if last < 0.0 then DEFAULT_DT else stamp - last
  }

  function StepOf(s: Sample, last: real): Step {
    Step(s.acceleration, s.angularVelocity, Dt(s.stamp, last))
  }

  /** The measurements of `q` in order, each with the time since the one before. */
  function Steps(q: seq<Sample>, last: real): (r: seq<Step>)
    ensures |r| == |q|
    decreases |q|
  {
    if q == [] then []
    else Steps(q[..|q| - 1], last) + [StepOf(q[|q| - 1], LastStamp(q[..|q| - 1], last))]
  }

  function LastStamp(q: seq<Sample>, otherwise: real): real {
    if q == [] then otherwise else q[|q| - 1].stamp
  }

  /** How many samples at the front are older than `t`. */
  function Lead(q: seq<Sample>, t: real): (n: nat)
    ensures n <= |q|
  {
    if q != [] && q[0].stamp < t then 1 + Lead(q[1..], t) else 0
  }

  lemma {:induction false} LeadMeaning(q: seq<Sample>, t: real)
    ensures forall k :: 0 <= k < Lead(q, t) ==> q[k].stamp < t
    ensures Lead(q, t) < |q| ==> q[Lead(q, t)].stamp >= t
  {
    if q != [] && q[0].stamp < t { LeadMeaning(q[1..], t); }
  }

  datatype Fate = Dropped(sample: Sample) | Integrated(sample: Sample, step: Step)

  /** What has happened to the samples: all that came in, what became of those no longer
      queued, and the measurements of the factors. */
  datatype Log = Log(arrived: seq<Sample>, fates: seq<Fate>, imuFactors: seq<seq<Step>>)

  /** The latest re-propagation: the time the queue was cut at, how many samples went, whether one
      was left, whether a live sample had come in before, and where the next one stands. */
  datatype Cut = Cut(at: real, gone: nat, left: bool, warm: bool, firstLive: nat)

  /** The node, with the log and the latest cut as history. */
  datatype State = State(
    systemInitialized: bool, doneFirstOpt: bool, lastImuTImu: real, lastImuTOpt: real, key: nat,
    queOpt: seq<Sample>, queImu: seq<Sample>, integratorOpt: Integrator, integratorImu: Integrator,
    prevPose: Pose, prevBias: Bias, prevBiasOdom: Bias, vars: set<nat>, factors: seq<Factor>, log: Log, cut: Cut)

  const INITIAL: State := State(
    false, false, -1.0, -1.0, 1, [], [], Integrator(ZERO_BIAS, []), Integrator(ZERO_BIAS, []),
    ZERO_POSE, ZERO_BIAS, ZERO_BIAS, {}, [], Log([], [], []), Cut(-1.0, 0, false, false, 0))

  // ---------------------------------------------------------------------------
  // The handlers as functions

  function OnImu(st: State, s: Sample): State {
    var queued := st.(queOpt := st.queOpt + [s], queImu := st.queImu + [s], log := st.log.(arrived := st.log.arrived + [s]));
    if !st.doneFirstOpt then queued
    else queued.(
      lastImuTImu := s.stamp,
      integratorImu := Integrator(st.integratorImu.bias, st.integratorImu.steps + [StepOf(s, st.lastImuTImu)]))
  }

  function DroppedAll(q: seq<Sample>): seq<Fate> {
    seq(|q|, i requires 0 <= i < |q| => Dropped(q[i]))
  }

  function IntegratedAll(q: seq<Sample>, last: real): seq<Fate>
    decreases |q|
  {
    if q == [] then []
    else
      var front, s := q[..|q| - 1], q[|q| - 1];
      IntegratedAll(front, last) + [Integrated(s, StepOf(s, LastStamp(front, last)))]
  }

  function Initialize(st: State, m: Correction): State {
    var n := Lead(st.queOpt, m.t);
    st.(systemInitialized := true, key := 1, vars := {0}, factors := [Prior(0, m.pose)], prevPose := m.pose,
        lastImuTOpt := LastStamp(st.queOpt[..n], st.lastImuTOpt),
        queOpt := st.queOpt[n..], prevBias := ZERO_BIAS,
        integratorImu := Integrator(ZERO_BIAS, []), integratorOpt := Integrator(ZERO_BIAS, []),
        log := st.log.(fates := st.log.fates + DroppedAll(st.queOpt[..n])))
  }

  function Recycle(st: State): State {
    if st.key == KEY_LIMIT then st.(vars := {0}, factors := [Prior(0, st.prevPose)], key := 1) else st
  }

  function Duration(steps: seq<Step>): real
    decreases |steps|
  {
    if steps == [] then 0.0 else Duration(steps[..|steps| - 1]) + steps[|steps| - 1].dt
  }

  /** The factors that bind variable `key`. */
  function Binding(key: nat, steps: seq<Step>, m: Correction): seq<Factor> {
    [ImuFactor(key - 1, key, steps), BiasBetween(key - 1, key, Duration(steps)), PosePrior(key, m.pose, m.degenerate)]
  }

  /** Integration, factors and optimisation. */
  function Optimize(st: State, m: Correction, e: Estimate): State
  {
    var n := Lead(st.queOpt, m.t);
    var used := st.queOpt[..n];
    var steps := st.integratorOpt.steps + Steps(used, st.lastImuTOpt);
    st.(queOpt := st.queOpt[n..],
        lastImuTOpt := LastStamp(used, st.lastImuTOpt),
        vars := st.vars + {st.key}, factors := st.factors + Binding(st.key, steps, m),
        prevPose := e.pose, prevBias := e.bias,
        integratorOpt := Integrator(e.bias, []),
        log := st.log.(fates := st.log.fates + IntegratedAll(used, st.lastImuTOpt),
          imuFactors := st.log.imuFactors + [steps]))
  }

  /** Re-propagation of the live integrator after a good estimate. */
  function Repropagate(st: State, t: real): State {
    var n := Lead(st.queImu, t);
    var cut, rest := LastStamp(st.queImu[..n], -1.0), st.queImu[n..];
    st.(prevBiasOdom := st.prevBias, queImu := rest,
        integratorImu := if rest == [] then st.integratorImu else Integrator(st.prevBias, Steps(rest, cut)),
        key := st.key + 1, doneFirstOpt := true,
        cut := Cut(cut, n, rest != [], rest != [] && st.lastImuTImu >= 0.0, |rest|))
  }

  function ResetParams(st: State): State {
    st.(lastImuTImu := -1.0, doneFirstOpt := false, systemInitialized := false)
  }

  function Correct(st: State, m: Correction, e: Estimate): State
  {
    var o := Optimize(Recycle(st), m, e);
    if Failure(e) then ResetParams(o) else Repropagate(o, m.t)
  }

  function OnOdometry(st: State, m: Correction, e: Estimate): State
  {
    if st.queOpt == [] then st
    else if !st.systemInitialized then Initialize(st, m)
    else Correct(st, m, e)
  }

  datatype Event = Imu(sample: Sample) | Odometry(correction: Correction, estimate: Estimate)

  function Apply(st: State, ev: Event): State
  {
    match ev
    case Imu(s) => OnImu(st, s)
    case Odometry(m, e) => OnOdometry(st, m, e)
  }

  function Run(st: State, evs: seq<Event>): State
    decreases |evs|
  {
    if evs == [] then st else Apply(Run(st, evs[..|evs| - 1]), evs[|evs| - 1])
  }

  /** Stamps are times since some epoch. */
  predicate Timed(evs: seq<Event>) {
    forall k :: 0 <= k < |evs| && evs[k].Imu? ==> evs[k].sample.stamp >= 0.0
  }

  // ---------------------------------------------------------------------------
  // Invariants

  function Samples(fs: seq<Fate>): seq<Sample> {
    seq(|fs|, i requires 0 <= i < |fs| => fs[i].sample)
  }

  function IntegratedSteps(fs: seq<Fate>): seq<Step> {
    if fs == [] then []
    else
      var last := fs[|fs| - 1];
      IntegratedSteps(fs[..|fs| - 1]) + (if last.Integrated? then [last.step] else [])
  }

  /** Between events the optimiser holds exactly the variables below `key`, and `key` stays
      between 1 and 100. */
  predicate KeysOk(st: State) {
    st.systemInitialized ==> st.vars == Keys(st.key) && 1 <= st.key <= KEY_LIMIT
  }

  /** The factors that bind variable `k` to the one before it, and the measurements between them. */
  predicate Link(fs: seq<Factor>, k: nat, steps: seq<Step>)
    requires 1 <= k && 3 * k < |fs|
  {
    && fs[3 * k - 2] == ImuFactor(k - 1, k, steps)
    && fs[3 * k - 1] == BiasBetween(k - 1, k, Duration(steps))
    && fs[3 * k].PosePrior? && fs[3 * k].key == k
  }

  /** The graph is a chain: one prior at variable 0, and each later variable bound to the one before
      it by one set of measurements, the last ones integrated. */
  predicate Chain(fs: seq<Factor>, key: nat, imuFactors: seq<seq<Step>>) {
    && 1 <= key <= |imuFactors| + 1 && |fs| == 3 * key - 2
    && fs[0].Prior? && fs[0].key == 0
    && forall k :: 1 <= k < key ==> LinkAt(fs, key, imuFactors, k)
  }

  predicate LinkAt(fs: seq<Factor>, key: nat, imuFactors: seq<seq<Step>>, k: nat)
    requires 1 <= k < key <= |imuFactors| + 1 && |fs| == 3 * key - 2
  {
    Link(fs, k, imuFactors[|imuFactors| - key + k])
  }

  predicate ChainOk(st: State) {
    st.systemInitialized ==> Chain(st.factors, st.key, st.log.imuFactors)
  }

  /** Each measurement lasts from the sample before it, integrated or not, to its own. */
  predicate FatesOk(fs: seq<Fate>) {
    forall i :: 0 <= i < |fs| ==> FateOk(fs, i)
  }

  predicate FateOk(fs: seq<Fate>, i: nat)
    requires i < |fs|
  {
    var s := fs[i].sample;
    fs[i].Integrated? ==>
      fs[i].step == Step(s.acceleration, s.angularVelocity,
                         if i == 0 then DEFAULT_DT else s.stamp - fs[i - 1].sample.stamp)
  }

  predicate OptTimeOk(st: State) { TimesOk(st.lastImuTOpt, st.log.fates) }

  predicate TimesOk(last: real, fates: seq<Fate>) {
    && last == (if fates == [] then -1.0 else fates[|fates| - 1].sample.stamp)
    && FatesOk(fates)
    && forall i :: 0 <= i < |fates| ==> fates[i].sample.stamp >= 0.0
  }

  /** Every sample was dropped at an initialisation, went into one factor, or is still
      queued, all in order of arrival; the factors hold exactly what was integrated. */
  predicate Accounted(st: State) {
    && st.log.arrived == Samples(st.log.fates) + st.queOpt
    && Flatten(st.log.imuFactors) == IntegratedSteps(st.log.fates)
    && st.integratorOpt.steps == []
  }

  /** The live side: what it waits for, and the last live time. */
  predicate LiveOk(st: State) {
    && (st.doneFirstOpt ==> st.systemInitialized)
    && (!st.doneFirstOpt ==> st.lastImuTImu < 0.0)
    && (st.lastImuTImu >= 0.0 ==> st.log.arrived != [] && st.lastImuTImu == st.log.arrived[|st.log.arrived| - 1].stamp)
    && (forall k :: 0 <= k < |st.log.arrived| ==> st.log.arrived[k].stamp >= 0.0)
    && |st.queImu| <= |st.log.arrived| && st.queImu == st.log.arrived[|st.log.arrived| - |st.queImu|..]
  }

  /** The time the live queue was cut at is that of the sample that came just before it, or none if
      the cut took nothing. */
  predicate CutOk(st: State) {
    && (st.cut.gone > 0 ==> |st.queImu| < |st.log.arrived|)
    && st.cut.at == (if st.cut.gone == 0 then -1.0 else st.log.arrived[|st.log.arrived| - |st.queImu| - 1].stamp)
  }

  /** The live integrator is what re-integrating the whole queue from the latest bias gives. */
  predicate Agrees(st: State) {
    st.integratorImu == Integrator(st.prevBiasOdom, Steps(st.queImu, st.cut.at))
  }

  /** The same, but for the time step of the one sample at `firstLive`. */
  predicate AgreesButFirst(st: State) {
    && st.cut.firstLive < |st.queImu| == |st.integratorImu.steps|
    && st.integratorImu.bias == st.prevBiasOdom
    && st.integratorImu.steps == Steps(st.queImu, st.cut.at)[st.cut.firstLive :=
         Steps(st.queImu, st.cut.at)[st.cut.firstLive].(dt := DEFAULT_DT)]
  }

  /** After a correction that left a sample: full agreement while no live sample has come in
      or once one had come in before that correction, and otherwise agreement except for the
      first live sample, which was charged the default time step. */
  predicate LiveAgrees(st: State) {
    st.doneFirstOpt && st.cut.left ==>
      && st.queImu != []
      && (st.cut.warm ==> st.lastImuTImu >= 0.0)
      && (st.cut.warm || st.lastImuTImu < 0.0 ==> Agrees(st))
      && (!st.cut.warm && st.lastImuTImu < 0.0 ==> st.cut.firstLive == |st.queImu|)
      && (!st.cut.warm && st.lastImuTImu >= 0.0 ==> AgreesButFirst(st))
  }

  predicate Inv(st: State) {
    KeysOk(st) && ChainOk(st) && Accounted(st) && OptTimeOk(st) && LiveOk(st) && CutOk(st) && LiveAgrees(st)
  }

  // ---------------------------------------------------------------------------
  // Preservation

  lemma StepsAppend(q: seq<Sample>, s: Sample, last: real)
    ensures Steps(q + [s], last) == Steps(q, last) + [StepOf(s, LastStamp(q, last))]
  {
    assert (q + [s])[..|q|] == q;
  }

  lemma OnImuAccounts(st: State, s: Sample)
    requires Accounted(st)
    ensures Accounted(OnImu(st, s))
  {
    hide Flatten;
    hide IntegratedSteps;
    assert st.log.arrived + [s] == Samples(st.log.fates) + (st.queOpt + [s]);
  }

  lemma OnImuLiveOk(st: State, s: Sample)
    requires LiveOk(st) && s.stamp >= 0.0
    ensures LiveOk(OnImu(st, s))
  {
    var a, q := st.log.arrived + [s], st.queImu + [s];
    assert q == a[|a| - |q|..] by {
      assert a[|a| - |q|..] == st.log.arrived[|st.log.arrived| - |st.queImu|..] + [s];
    }
  }

  lemma SuffixLast(a: seq<Sample>, q: seq<Sample>)
    requires 0 < |q| <= |a| && q == a[|a| - |q|..]
    ensures q[|q| - 1] == a[|a| - 1]
  {}

  lemma OnImuLiveAgrees(st: State, s: Sample)
    requires LiveOk(st) && LiveAgrees(st) && s.stamp >= 0.0
    ensures LiveAgrees(OnImu(st, s))
  {
    if st.doneFirstOpt && st.cut.left {
      StepsAppend(st.queImu, s, st.cut.at);
      SuffixLast(st.log.arrived, st.queImu);
      var steps, more := Steps(st.queImu, st.cut.at), StepOf(s, LastStamp(st.queImu, st.cut.at));
      hide Steps;
      if st.lastImuTImu >= 0.0 {
        assert StepOf(s, st.lastImuTImu) == more;
        if !st.cut.warm {
          var k := st.cut.firstLive;
          assert steps[k := steps[k].(dt := DEFAULT_DT)] + [more]
              == (steps + [more])[k := (steps + [more])[k].(dt := DEFAULT_DT)];
        }
      } else if !st.cut.warm {
        assert StepOf(s, st.lastImuTImu) == more.(dt := DEFAULT_DT);
        assert steps + [more.(dt := DEFAULT_DT)] == (steps + [more])[|steps| := more.(dt := DEFAULT_DT)];
      }
    }
  }

  lemma OnImuKeeps(st: State, s: Sample)
    requires Inv(st) && s.stamp >= 0.0
    ensures Inv(OnImu(st, s))
  {
    OnImuAccounts(st, s);
    OnImuLiveOk(st, s);
    OnImuLiveAgrees(st, s);
    hide Chain;
    hide FatesOk;
    hide Accounted;
    hide LiveOk;
    hide LiveAgrees;
  }

  lemma {:induction false} FlattenFates(fs: seq<Fate>, gs: seq<Fate>)
    ensures IntegratedSteps(fs + gs) == IntegratedSteps(fs) + IntegratedSteps(gs)
    decreases |gs|
  {
    if gs == [] {
      assert fs + gs == fs;
    } else {
      var front, last := gs[..|gs| - 1], gs[|gs| - 1];
      assert (fs + gs)[..|fs + gs| - 1] == fs + front;
      FlattenFates(fs, front);
    }
  }

  lemma {:induction false} DroppedHaveNoSteps(q: seq<Sample>)
    ensures IntegratedSteps(DroppedAll(q)) == [] && Samples(DroppedAll(q)) == q
    decreases |q|
  {
    if q != [] {
      DroppedHaveNoSteps(q[..|q| - 1]);
      assert DroppedAll(q)[..|q| - 1] == DroppedAll(q[..|q| - 1]);
    }
  }

  lemma {:induction false} IntegratedHaveSteps(q: seq<Sample>, last: real)
    ensures IntegratedSteps(IntegratedAll(q, last)) == Steps(q, last) && Samples(IntegratedAll(q, last)) == q
    decreases |q|
  {
    if q != [] {
      var front := q[..|q| - 1];
      IntegratedHaveSteps(front, last);
      SamplesConcat(IntegratedAll(front, last), [IntegratedAll(q, last)[|q| - 1]]);
      assert IntegratedAll(q, last)[..|q| - 1] == IntegratedAll(front, last);
    }
  }

  lemma SamplesConcat(fs: seq<Fate>, gs: seq<Fate>)
    ensures Samples(fs + gs) == Samples(fs) + Samples(gs)
  {}

  /** Samples leave the queue for good, in order. */
  lemma Leave(arrived: seq<Sample>, fates: seq<Fate>, q: seq<Sample>, n: nat, gone: seq<Fate>)
    requires arrived == Samples(fates) + q && n <= |q| && Samples(gone) == q[..n]
    ensures arrived == Samples(fates + gone) + q[n..]
  {
    SamplesConcat(fates, gone);
    assert q == q[..n] + q[n..];
  }

  lemma InitializeAccounts(st: State, m: Correction)
    requires Accounted(st)
    ensures Accounted(Initialize(st, m))
  {
    hide Flatten;
    var n := Lead(st.queOpt, m.t);
    var gone := DroppedAll(st.queOpt[..n]);
    DroppedHaveNoSteps(st.queOpt[..n]);
    FlattenFates(st.log.fates, gone);
    Leave(st.log.arrived, st.log.fates, st.queOpt, n, gone);
    assert IntegratedSteps(st.log.fates) + [] == IntegratedSteps(st.log.fates);
  }

  lemma FactorAppend(xs: seq<seq<Step>>, x: seq<Step>)
    ensures Flatten(xs + [x]) == Flatten(xs) + x
  {
    assert (xs + [x])[..|xs|] == xs;
  }

  lemma OptimizeAccounts(st: State, m: Correction, e: Estimate)
    requires Accounted(st)
    ensures Accounted(Optimize(st, m, e))
  {
    hide Flatten;
    hide IntegratedSteps;
    hide Steps;
    hide IntegratedAll;
    var n := Lead(st.queOpt, m.t);
    var used := st.queOpt[..n];
    var gone := IntegratedAll(used, st.lastImuTOpt);
    IntegratedHaveSteps(used, st.lastImuTOpt);
    FlattenFates(st.log.fates, gone);
    Leave(st.log.arrived, st.log.fates, st.queOpt, n, gone);
    assert st.integratorOpt.steps + Steps(used, st.lastImuTOpt) == Steps(used, st.lastImuTOpt);
    FactorAppend(st.log.imuFactors, Steps(used, st.lastImuTOpt));
  }

  lemma RepropagateLive(st: State, t: real)
    requires LiveOk(st) && st.systemInitialized
    ensures LiveOk(Repropagate(st, t)) && LiveAgrees(Repropagate(st, t))
  {
    hide Steps;
    hide Lead;
    SuffixOfSuffix(st.log.arrived, st.queImu, Lead(st.queImu, t));
  }

  lemma SuffixOfSuffix(a: seq<Sample>, q: seq<Sample>, n: nat)
    requires n <= |q| <= |a| && q == a[|a| - |q|..]
    ensures q[n..] == a[|a| - |q[n..]|..]
  {}

  /** What the estimate does to the live side, up to re-propagation: nothing. */
  lemma OptimizeLive(st: State, m: Correction, e: Estimate)
    requires LiveOk(st)
    ensures LiveOk(Optimize(st, m, e)) && Optimize(st, m, e).systemInitialized == st.systemInitialized
  {
    hide Steps;
    hide IntegratedAll;
  }

  lemma InitializeLive(st: State, m: Correction)
    requires LiveOk(st) && !st.systemInitialized
    ensures LiveOk(Initialize(st, m)) && LiveAgrees(Initialize(st, m)) && KeysOk(Initialize(st, m))
    ensures ChainOk(Initialize(st, m))
  {
    hide DroppedAll;
  }

  lemma CorrectKeys(st: State, m: Correction, e: Estimate)
    requires KeysOk(st) && st.systemInitialized
    ensures KeysOk(Correct(st, m, e))
  {
    hide Steps;
    hide IntegratedAll;
    var r := Recycle(st);
    assert r.vars == Keys(r.key) && r.key < KEY_LIMIT;
    assert Keys(r.key + 1) == Keys(r.key) + {r.key};
  }

  lemma CorrectAccounts(st: State, m: Correction, e: Estimate)
    requires Accounted(st)
    ensures Accounted(Correct(st, m, e))
  {
    var r := Recycle(st);
    OptimizeAccounts(r, m, e);
    hide Optimize;
    hide Steps;
    hide Flatten;
    hide IntegratedSteps;
  }

  lemma CorrectLive(st: State, m: Correction, e: Estimate)
    requires LiveOk(st) && st.systemInitialized
    ensures LiveOk(Correct(st, m, e)) && LiveAgrees(Correct(st, m, e))
  {
    var r := Recycle(st);
    OptimizeLive(r, m, e);
    hide Optimize;
    hide Steps;
    if !Failure(e) { RepropagateLive(Optimize(r, m, e), m.t); }
  }

  lemma LinkStays(fs: seq<Factor>, more: seq<Factor>, k: nat, steps: seq<Step>)
    requires 1 <= k && 3 * k < |fs| && Link(fs, k, steps)
    ensures Link(fs + more, k, steps)
  {
    hide Duration;
  }

  lemma ChainGrows(fs: seq<Factor>, key: nat, imuFactors: seq<seq<Step>>, steps: seq<Step>, m: Correction)
    requires Chain(fs, key, imuFactors)
    ensures Chain(fs + Binding(key, steps, m), key + 1, imuFactors + [steps])
  {
    hide Duration;
    hide Link;
    var more, all, n := fs + Binding(key, steps, m), imuFactors + [steps], |imuFactors|;
    var next := key + 1;
    assert more[0] == fs[0];
    forall k | 1 <= k < next ensures LinkAt(more, next, all, k) {
      if k < key {
        assert LinkAt(fs, key, imuFactors, k) && all[n - key + k] == imuFactors[n - key + k];
        LinkStays(fs, Binding(key, steps, m), k, imuFactors[n - key + k]);
      } else {
        NewLink(fs, key, steps, m);
      }
    }
  }

  lemma NewLink(fs: seq<Factor>, key: nat, steps: seq<Step>, m: Correction)
    requires 1 <= key && |fs| == 3 * key - 2
    ensures Link(fs + Binding(key, steps, m), key, steps)
  {
    hide Duration;
  }

  lemma CorrectChain(st: State, m: Correction, e: Estimate)
    requires ChainOk(st) && KeysOk(st) && st.systemInitialized
    ensures ChainOk(Correct(st, m, e))
  {
    hide Steps;
    hide IntegratedAll;
    hide Failure;
    hide Binding;
    hide Link;
    hide KeysOk;
    var r := Recycle(st);
    var steps := st.integratorOpt.steps + Steps(st.queOpt[..Lead(st.queOpt, m.t)], st.lastImuTOpt);
    assert Chain(r.factors, r.key, r.log.imuFactors);
    ChainGrows(r.factors, r.key, r.log.imuFactors, steps, m);
    hide Chain;
    hide Lead;
  }

  lemma {:induction false} StepsAt(q: seq<Sample>, last: real, i: nat)
    requires i < |q|
    ensures Steps(q, last)[i]
         == Step(q[i].acceleration, q[i].angularVelocity, Dt(q[i].stamp, if i == 0 then last else q[i - 1].stamp))
    decreases |q|
  {
    if i < |q| - 1 { StepsAt(q[..|q| - 1], last, i); }
  }

  lemma {:induction false} IntegratedAt(q: seq<Sample>, last: real, i: nat)
    requires i < |q|
    ensures |IntegratedAll(q, last)| == |q| && IntegratedAll(q, last)[i] == Integrated(q[i], Steps(q, last)[i])
    decreases |q|
  {
    if i < |q| - 1 {
      IntegratedAt(q[..|q| - 1], last, i);
    } else if |q| > 1 {
      IntegratedAt(q[..|q| - 1], last, 0);
    }
  }

  /** Samples that leave next, integrated with the time since the last one that left. */
  lemma FatesGrow(fs: seq<Fate>, q: seq<Sample>, gone: seq<Fate>, last: real)
    requires FatesOk(fs) && last == (if fs == [] then -1.0 else fs[|fs| - 1].sample.stamp)
    requires (forall i :: 0 <= i < |fs| ==> fs[i].sample.stamp >= 0.0) && forall i :: 0 <= i < |q| ==> q[i].stamp >= 0.0
    requires |gone| == |q| && forall i :: 0 <= i < |q| ==>
      gone[i] == Dropped(q[i]) || gone[i] == Integrated(q[i], Steps(q, last)[i])
    ensures FatesOk(fs + gone) && forall i :: 0 <= i < |fs + gone| ==> (fs + gone)[i].sample.stamp >= 0.0
    ensures LastStamp(q, last) == (if fs + gone == [] then -1.0 else (fs + gone)[|fs + gone| - 1].sample.stamp)
  {
    hide Steps;
    var all, n := fs + gone, |fs|;
    forall i | 0 <= i < |all| ensures FateOk(all, i) {
      if i < n {
        assert FateOk(fs, i) && all[i] == fs[i] && (i > 0 ==> all[i - 1] == fs[i - 1]);
      } else {
        assert all[i] == gone[i - n];
        StepsAt(q, last, i - n);
        if i > n { assert all[i - 1] == gone[i - 1 - n]; }
      }
    }
  }

  lemma QueuedStamps(st: State)
    requires Accounted(st) && LiveOk(st)
    ensures forall i :: 0 <= i < |st.queOpt| ==> st.queOpt[i].stamp >= 0.0
  {
    forall i | 0 <= i < |st.queOpt| ensures st.queOpt[i].stamp >= 0.0 {
      assert st.queOpt[i] == st.log.arrived[|st.log.fates| + i];
    }
  }

  lemma InitializeTimes(st: State, m: Correction)
    requires OptTimeOk(st) && Accounted(st) && LiveOk(st)
    ensures OptTimeOk(Initialize(st, m))
  {
    QueuedStamps(st);
    hide Steps;
    hide Accounted;
    hide FatesOk;
    var used := st.queOpt[..Lead(st.queOpt, m.t)];
    FatesGrow(st.log.fates, used, DroppedAll(used), st.lastImuTOpt);
  }

  lemma CorrectTimes(st: State, m: Correction, e: Estimate)
    requires OptTimeOk(st) && Accounted(st) && LiveOk(st)
    ensures OptTimeOk(Correct(st, m, e))
  {
    QueuedStamps(st);
    hide TimesOk;
    hide Accounted;
    hide LiveOk;
    OptimizeTimes(Recycle(st), m, e);
    hide Optimize;
    hide Failure;
    hide Steps;
    hide Lead;
  }

  lemma OptimizeTimes(st: State, m: Correction, e: Estimate)
    requires OptTimeOk(st) && forall i :: 0 <= i < |st.queOpt| ==> st.queOpt[i].stamp >= 0.0
    ensures OptTimeOk(Optimize(st, m, e))
  {
    hide Steps;
    hide FatesOk;
    hide IntegratedAll;
    hide Binding;
    hide Lead;
    var used := st.queOpt[..Lead(st.queOpt, m.t)];
    var gone := IntegratedAll(used, st.lastImuTOpt);
    IntegratedLength(used, st.lastImuTOpt);
    forall i | 0 <= i < |used| ensures gone[i] == Integrated(used[i], Steps(used, st.lastImuTOpt)[i]) {
      IntegratedAt(used, st.lastImuTOpt, i);
    }
    FatesGrow(st.log.fates, used, gone, st.lastImuTOpt);
  }

  lemma {:induction false} IntegratedLength(q: seq<Sample>, last: real)
    ensures |IntegratedAll(q, last)| == |q|
    decreases |q|
  {
    if q != [] { IntegratedLength(q[..|q| - 1], last); }
  }

  lemma RepropagateCut(st: State, t: real)
    requires LiveOk(st)
    ensures CutOk(Repropagate(st, t))
  {
    hide Steps;
    hide Lead;
    var n := Lead(st.queImu, t);
    if n > 0 { assert st.queImu[..n][n - 1] == st.log.arrived[|st.log.arrived| - |st.queImu| + n - 1]; }
  }

  lemma CorrectCut(st: State, m: Correction, e: Estimate)
    requires LiveOk(st) && CutOk(st) && st.systemInitialized
    ensures CutOk(Correct(st, m, e))
  {
    hide Steps;
    hide IntegratedAll;
    hide Lead;
    hide Binding;
    var o := Optimize(Recycle(st), m, e);
    assert LiveOk(o) && CutOk(o);
    hide Optimize;
    hide Recycle;
    hide LiveOk;
    if !Failure(e) { RepropagateCut(o, m.t); }
    hide Repropagate;
  }

  lemma OnOdometryKeeps(st: State, m: Correction, e: Estimate)
    requires Inv(st)
    ensures Inv(OnOdometry(st, m, e))
  {
    hide KeysOk;
    hide ChainOk;
    hide Accounted;
    hide OptTimeOk;
    hide LiveOk;
    hide LiveAgrees;
    if st.queOpt != [] && !st.systemInitialized { assert CutOk(Initialize(st, m)); }
    hide CutOk;
    hide Initialize;
    hide Correct;
    if st.queOpt != [] {
      if st.systemInitialized {
        CorrectKeys(st, m, e);
        CorrectChain(st, m, e);
        CorrectTimes(st, m, e);
        CorrectAccounts(st, m, e);
        CorrectCut(st, m, e);
        CorrectLive(st, m, e);
      } else {
        InitializeAccounts(st, m);
        InitializeTimes(st, m);
        InitializeLive(st, m);
      }
    }
  }

  /** Every run from the start keeps all of it, whatever the estimates and however messages
      interleave. */
  lemma {:induction false} RunKeepsInv(evs: seq<Event>)
    requires Timed(evs)
    ensures Inv(Run(INITIAL, evs))
    decreases |evs|
  {
    if evs == [] {
      assert Samples([]) == [];
    } else {
      var front, last := evs[..|evs| - 1], evs[|evs| - 1];
      RunKeepsInv(front);
      match last {
        case Imu(s) => OnImuKeeps(Run(INITIAL, front), s);
        case Odometry(m, e) => OnOdometryKeeps(Run(INITIAL, front), m, e);
      }
    }
  }

  /** In every run: while live and after a correction that left a sample, the live integrator is
      the re-integration of the whole queue from the latest bias, as soon as a live sample came in
      before that correction or as long as none has come in at all. */
  lemma {:induction false} LiveIntegratorAgrees(evs: seq<Event>)
    requires Timed(evs)
    ensures var st := Run(INITIAL, evs);
      st.doneFirstOpt && st.cut.left && (st.cut.warm || st.lastImuTImu < 0.0) ==> Agrees(st)
  {
    RunKeepsInv(evs);
    hide Run;
    hide Agrees;
    hide KeysOk;
    hide Accounted;
  }

  /** In every run the optimiser of an initialised system holds exactly the variables below
      `key`, and `key` is between 1 and 100. */
  lemma {:induction false} KeysStayBounded(evs: seq<Event>)
    requires Timed(evs) && Run(INITIAL, evs).systemInitialized
    ensures var st := Run(INITIAL, evs);
      1 <= st.key <= KEY_LIMIT && forall k: nat :: k in st.vars <==> k < st.key
  {
    RunKeepsInv(evs);
    hide Run;
    hide LiveOk;
    hide LiveAgrees;
    hide Accounted;
  }

  function ImuSamples(evs: seq<Event>): seq<Sample>
    decreases |evs|
  {
    if evs == [] then []
    else
      var last := evs[|evs| - 1];
      ImuSamples(evs[..|evs| - 1]) + (if last.Imu? then [last.sample] else [])
  }

  lemma {:induction false} ArrivedAreImuSamples(evs: seq<Event>)
    ensures Run(INITIAL, evs).log.arrived == ImuSamples(evs)
    decreases |evs|
  {
    hide Steps;
    hide IntegratedAll;
    hide DroppedAll;
    if evs != [] { ArrivedAreImuSamples(evs[..|evs| - 1]); }
  }

  /** In every run the samples received are those dropped at an initialisation or integrated into
      a factor, and after them those still queued, each once and in order; the factors hold, in
      order, exactly the measurements of the integrated ones. */
  lemma EverySampleOnce(evs: seq<Event>)
    requires Timed(evs)
    ensures var st := Run(INITIAL, evs);
      && ImuSamples(evs) == Samples(st.log.fates) + st.queOpt
      && Flatten(st.log.imuFactors) == IntegratedSteps(st.log.fates)
  {
    RunKeepsInv(evs);
    ArrivedAreImuSamples(evs);
    hide Run;
    hide LiveOk;
    hide LiveAgrees;
    hide Samples;
    hide Flatten;
    hide IntegratedSteps;
  }

  // ---------------------------------------------------------------------------
  // What the measurements and factors are

  /** In every run each sample is integrated for the optimiser with its own measurement, over the
      time from the sample that arrived before it; only the very first gets 1/500 s. */
  lemma EveryStepSpansFromTheSampleBefore(evs: seq<Event>, i: nat)
    requires Timed(evs) && i < |Run(INITIAL, evs).log.fates| && Run(INITIAL, evs).log.fates[i].Integrated?
    ensures i < |ImuSamples(evs)|
    ensures var s := ImuSamples(evs)[i];
      Run(INITIAL, evs).log.fates[i] == Integrated(s, Step(s.acceleration, s.angularVelocity,
        if i == 0 then 1.0 / 500.0 else s.stamp - ImuSamples(evs)[i - 1].stamp))
  {
    hide LiveOk;
    hide LiveAgrees;
    hide Run;
    RunKeepsInv(evs);
    ArrivedAreImuSamples(evs);
    var st := Run(INITIAL, evs);
    assert FateOk(st.log.fates, i);
    assert st.log.arrived[i] == st.log.fates[i].sample;
    if i > 0 { assert st.log.arrived[i - 1] == st.log.fates[i - 1].sample; }
  }

  /** In every run the optimiser of an initialised system holds one prior, on variable 0, and binds
      each variable to the one before it by one set of measurements, one step between biases over
      the time these span, and one pose. */
  lemma GraphIsAChain(evs: seq<Event>)
    requires Timed(evs) && Run(INITIAL, evs).systemInitialized
    ensures var st := Run(INITIAL, evs); Chain(st.factors, st.key, st.log.imuFactors)
  {
    RunKeepsInv(evs);
    hide Run;
    hide LiveOk;
    hide LiveAgrees;
    hide Accounted;
    hide Chain;
  }

  /** The queue loses exactly its first samples older than `t`, up to the first that is not. */
  predicate LosesOlder(q: seq<Sample>, rest: seq<Sample>, t: real) {
    && |rest| <= |q| && rest == q[|q| - |rest|..]
    && (forall k :: 0 <= k < |q| - |rest| ==> q[k].stamp < t)
    && (rest != [] ==> rest[0].stamp >= t)
  }

  lemma CutLosesOlder(q: seq<Sample>, t: real)
    ensures LosesOlder(q, q[Lead(q, t)..], t)
  {
    LeadMeaning(q, t);
  }

  /** The estimate moves faster than 30 or has a bias above 1. */
  predicate TooFast(e: Estimate) {
    var v, a, g := e.velocity, e.bias.accelerometer, e.bias.gyroscope;
    || v.x * v.x + v.y * v.y + v.z * v.z > 30.0 * 30.0
    || a.x * a.x + a.y * a.y + a.z * a.z > 1.0 || g.x * g.x + g.y * g.y + g.z * g.z > 1.0
  }

  lemma FastIsFailure(e: Estimate)
    ensures TooFast(e) <==> Failure(e)
  {}

  /** What a good correction makes of the live side. */
  lemma GoodOutcome(st: State, m: Correction, e: Estimate)
    requires st.systemInitialized && st.queOpt != [] && !TooFast(e)
    ensures var next, n := OnOdometry(st, m, e), Lead(st.queImu, m.t);
      && next.queImu == st.queImu[n..] && next.lastImuTImu == st.lastImuTImu
      && next.doneFirstOpt && next.systemInitialized && next.key == Recycle(st).key + 1
      && (n < |st.queImu| ==>
            next.integratorImu == Integrator(e.bias, Steps(st.queImu[n..], LastStamp(st.queImu[..n], -1.0))))
  {
    FastIsFailure(e);
    hide Failure;
    hide TooFast;
    hide Steps;
    hide IntegratedAll;
    hide Binding;
    hide Lead;
    hide LastStamp;
  }

  /** What any correction makes of the optimiser's side. */
  lemma OptimizerOutcome(st: State, m: Correction, e: Estimate)
    requires st.systemInitialized && st.queOpt != []
    ensures var next, o := OnOdometry(st, m, e), Optimize(Recycle(st), m, e);
      && next.queOpt == o.queOpt && next.factors == o.factors && next.log == o.log
      && next.prevPose == e.pose && next.prevBias == e.bias && next.integratorOpt == Integrator(e.bias, [])
      && (TooFast(e) ==> next.queImu == st.queImu && next.lastImuTImu == -1.0 && !next.systemInitialized
                         && !next.doneFirstOpt && next.key == Recycle(st).key)
  {
    FastIsFailure(e);
    hide Failure;
    hide TooFast;
    hide Steps;
    hide IntegratedAll;
    hide Binding;
    hide Lead;
    hide LastStamp;
  }

  lemma OptimizeMeaning(st: State, m: Correction, e: Estimate)
    requires st.integratorOpt.steps == []
    ensures var next, n := Optimize(st, m, e), Lead(st.queOpt, m.t);
      var steps := Steps(st.queOpt[..n], st.lastImuTOpt);
      && next.queOpt == st.queOpt[n..]
      && next.log.imuFactors == st.log.imuFactors + [steps]
      && next.factors == st.factors
           + [ImuFactor(st.key - 1, st.key, steps), BiasBetween(st.key - 1, st.key, Duration(steps)),
              PosePrior(st.key, m.pose, m.degenerate)]
  {
    hide Steps;
    hide IntegratedAll;
    hide Lead;
    hide Duration;
    assert st.integratorOpt.steps + Steps(st.queOpt[..Lead(st.queOpt, m.t)], st.lastImuTOpt)
        == Steps(st.queOpt[..Lead(st.queOpt, m.t)], st.lastImuTOpt);
  }

  lemma StepsCarry(q: seq<Sample>, last: real)
    ensures forall i :: 0 <= i < |q| ==>
      && Steps(q, last)[i].acceleration == q[i].acceleration
      && Steps(q, last)[i].angularVelocity == q[i].angularVelocity
  {
    forall i | 0 <= i < |q|
      ensures Steps(q, last)[i].acceleration == q[i].acceleration
      ensures Steps(q, last)[i].angularVelocity == q[i].angularVelocity
    {
      StepsAt(q, last, i);
    }
  }

  /** A correction of an initialised system takes the samples older than itself, and binds the new
      variable to the one before it by their measurements and by its own pose. After a hundred
      variables the graph starts over from the pose last estimated. An estimate that is too fast
      gives up; any other lets the live side go on from it. */
  lemma CorrectionMeaning(st: State, m: Correction, e: Estimate)
    requires Inv(st) && st.systemInitialized && st.queOpt != []
    ensures var next := OnOdometry(st, m, e);
      var k := if st.key == 100 then 1 else st.key;
      var used, steps := st.queOpt[..|st.queOpt| - |next.queOpt|], next.log.imuFactors[|next.log.imuFactors| - 1];
      && LosesOlder(st.queOpt, next.queOpt, m.t)
      && next.factors == (if st.key == 100 then [Prior(0, st.prevPose)] else st.factors)
           + [ImuFactor(k - 1, k, steps), BiasBetween(k - 1, k, Duration(steps)), PosePrior(k, m.pose, m.degenerate)]
      && |steps| == |used|
      && (forall i :: 0 <= i < |used| ==>
            steps[i].acceleration == used[i].acceleration && steps[i].angularVelocity == used[i].angularVelocity)
      && next.prevPose == e.pose && next.prevBias == e.bias && next.integratorOpt == Integrator(e.bias, [])
      && (next.systemInitialized <==> !TooFast(e)) && (next.doneFirstOpt <==> !TooFast(e))
      && next.key == (if TooFast(e) then k else k + 1)
      && (TooFast(e) ==> next.queImu == st.queImu && next.lastImuTImu == -1.0)
      && (!TooFast(e) ==> LosesOlder(st.queImu, next.queImu, m.t))
  {
    hide Inv;
    hide OnOdometry;
    hide Optimize;
    hide LosesOlder;
    hide Duration;
    hide Lead;
    hide Steps;
    hide TooFast;
    var r, n := Recycle(st), Lead(st.queOpt, m.t);
    NothingIntegrated(st);
    CutLosesOlder(st.queOpt, m.t);
    CutLosesOlder(st.queImu, m.t);
    OptimizerOutcome(st, m, e);
    OptimizeMeaning(r, m, e);
    StepsCarry(st.queOpt[..n], st.lastImuTOpt);
    if !TooFast(e) { GoodOutcome(st, m, e); }
    assert st.queOpt[..|st.queOpt| - |st.queOpt[n..]|] == st.queOpt[..n];
  }

  lemma NothingIntegrated(st: State)
    requires Inv(st)
    ensures st.integratorOpt.steps == []
  {
    hide Chain;
    hide FatesOk;
    hide LiveOk;
    hide LiveAgrees;
  }

  /** The last live sample is the last queued one. */
  lemma LastLive(st: State)
    requires Inv(st)
    ensures st.lastImuTImu >= 0.0 && st.queImu != [] ==> st.lastImuTImu == st.queImu[|st.queImu| - 1].stamp
    ensures forall k :: 0 <= k < |st.queImu| ==> st.queImu[k].stamp >= 0.0
  {
    QueueStamps(st);
    hide Chain;
    hide FatesOk;
    hide Accounted;
    hide LiveAgrees;
  }

  /** A first correction drops the samples older than itself and starts the graph at its pose. */
  lemma InitializationMeaning(st: State, m: Correction, e: Estimate)
    requires Inv(st) && !st.systemInitialized && st.queOpt != []
    ensures var next := OnOdometry(st, m, e);
      && LosesOlder(st.queOpt, next.queOpt, m.t) && next.log.fates == st.log.fates + Dropping(st.queOpt, next.queOpt)
      && next.systemInitialized && next.key == 1 && next.factors == [Prior(0, m.pose)]
      && next.prevBias == ZERO_BIAS && next.integratorOpt == Integrator(ZERO_BIAS, []) == next.integratorImu
      && next.queImu == st.queImu && next.doneFirstOpt == st.doneFirstOpt
  {
    CutLosesOlder(st.queOpt, m.t);
    hide LosesOlder;
    hide LiveOk;
    hide LiveAgrees;
    hide Lead;
  }

  function Dropping(q: seq<Sample>, rest: seq<Sample>): seq<Fate> {
    seq(if |rest| <= |q| then |q| - |rest| else 0, i requires 0 <= i < |q| - |rest| => Dropped(q[i]))
  }

  // ---------------------------------------------------------------------------
  // The live side between two corrections

  /** Each sample of `q` gives its own measurement over the time from the one before it; before the
      first stands a sample of time `before`, or none, and the one at `cold` gets 1/500 s. */
  predicate Reintegrates(q: seq<Sample>, steps: seq<Step>, before: Option<real>, cold: int) {
    |steps| == |q| && forall k :: 0 <= k < |q| ==> StepFits(q, steps[k], before, cold, k)
  }

  predicate StepFits(q: seq<Sample>, step: Step, before: Option<real>, cold: int, k: nat)
    requires k < |q|
  {
    && step.acceleration == q[k].acceleration && step.angularVelocity == q[k].angularVelocity
    && step.dt == if k == cold || (k == 0 && before.None?) then 1.0 / 500.0
                  else q[k].stamp - (if k == 0 then before.value else q[k - 1].stamp)
  }

  lemma StepFitsMore(q: seq<Sample>, s: Sample, step: Step, before: Option<real>, cold: int, k: nat)
    requires k < |q| && StepFits(q, step, before, cold, k)
    ensures StepFits(q + [s], step, before, cold, k)
  {}

  /** What the live integrator holds at some time after a correction at which `left` samples were
      left and `warm` says whether a live one had come in before. */
  predicate Live(st: State, e: Estimate, before: Option<real>, left: nat, warm: bool) {
    && st.doneFirstOpt && st.queImu != [] && left <= |st.queImu|
    && st.integratorImu.bias == e.bias
    && (if warm || |st.queImu| > left then st.lastImuTImu == st.queImu[|st.queImu| - 1].stamp else st.lastImuTImu < 0.0)
    && Reintegrates(st.queImu, st.integratorImu.steps, before, if warm then -1 else left)
  }

  lemma LiveNext(st: State, s: Sample, e: Estimate, before: Option<real>, left: nat, warm: bool)
    requires Live(st, e, before, left, warm) && s.stamp >= 0.0 && st.queImu[|st.queImu| - 1].stamp >= 0.0
    ensures Live(OnImu(st, s), e, before, left, warm)
  {
    var q, steps, cold := st.queImu, st.integratorImu.steps, if warm then -1 else left;
    var more := OnImu(st, s).integratorImu.steps;
    assert OnImu(st, s).queImu == q + [s];
    forall k | 0 <= k < |q| + 1 ensures StepFits(q + [s], more[k], before, cold, k) {
      if k < |q| {
        assert more[k] == steps[k] && StepFits(q, steps[k], before, cold, k);
        StepFitsMore(q, s, steps[k], before, cold, k);
      }
    }
  }

  lemma LiveStarts(st: State, m: Correction, e: Estimate)
    requires Inv(st) && st.systemInitialized && st.queOpt != [] && !TooFast(e) && Lead(st.queImu, m.t) < |st.queImu|
    ensures var n := Lead(st.queImu, m.t);
      var before := if n == 0 then None else Some(st.queImu[n - 1].stamp);
      Live(OnOdometry(st, m, e), e, before, |st.queImu| - n, st.lastImuTImu >= 0.0)
  {
    hide Inv;
    hide OnOdometry;
    hide TooFast;
    hide Lead;
    hide Steps;
    hide StepFits;
    LastLive(st);
    GoodOutcome(st, m, e);
    var n := Lead(st.queImu, m.t);
    RestFits(st.queImu, n, if st.lastImuTImu >= 0.0 then -1 else |st.queImu| - n);
  }

  lemma RestFits(q: seq<Sample>, n: nat, cold: int)
    requires n < |q| && (forall k :: 0 <= k < |q| ==> q[k].stamp >= 0.0) && (cold == -1 || cold == |q| - n)
    ensures var steps := Steps(q[n..], LastStamp(q[..n], -1.0));
      Reintegrates(q[n..], steps, if n == 0 then None else Some(q[n - 1].stamp), cold)
  {
    hide Steps;
    var rest, last := q[n..], LastStamp(q[..n], -1.0);
    var before := if n == 0 then None else Some(q[n - 1].stamp);
    forall k | 0 <= k < |rest| ensures StepFits(rest, Steps(rest, last)[k], before, cold, k) {
      StepsAt(rest, last, k);
    }
  }

  /** From a good correction that leaves samples to the next, the live integrator holds exactly the
      samples left and all that came after, at the new bias, each over the time from the sample
      before it, the first from the last one taken by the correction. Only two get 1/500 s instead:
      the first, when the correction took none, and the first live one, when none had come before. */
  lemma {:induction false} LiveSinceCorrection(front: seq<Event>, m: Correction, e: Estimate, imus: seq<Event>)
    requires Timed(front) && Timed(imus) && forall k :: 0 <= k < |imus| ==> imus[k].Imu?
    requires var st := Run(INITIAL, front); st.systemInitialized && st.queOpt != [] && !TooFast(e)
    requires var st := Run(INITIAL, front); Lead(st.queImu, m.t) < |st.queImu|
    ensures var st := Run(INITIAL, front);
      var n, end := Lead(st.queImu, m.t), Run(OnOdometry(st, m, e), imus);
      && end.queImu == st.queImu[n..] + ImuSamples(imus) && end.integratorImu.bias == e.bias
      && Reintegrates(end.queImu, end.integratorImu.steps, if n == 0 then None else Some(st.queImu[n - 1].stamp),
           if st.lastImuTImu >= 0.0 then -1 else |st.queImu| - n)
  {
    hide Inv;
    hide TooFast;
    hide Lead;
    hide Reintegrates;
    hide Run;
    hide OnOdometry;
    RunKeepsInv(front);
    LiveGoesOn(Run(INITIAL, front), m, e, imus);
  }

  lemma {:induction false} LiveGoesOn(st: State, m: Correction, e: Estimate, imus: seq<Event>)
    requires Inv(st) && Timed(imus) && forall k :: 0 <= k < |imus| ==> imus[k].Imu?
    requires st.systemInitialized && st.queOpt != [] && !TooFast(e) && Lead(st.queImu, m.t) < |st.queImu|
    ensures var n, end := Lead(st.queImu, m.t), Run(OnOdometry(st, m, e), imus);
      && end.queImu == st.queImu[n..] + ImuSamples(imus) && Inv(end)
      && Live(end, e, if n == 0 then None else Some(st.queImu[n - 1].stamp), |st.queImu| - n, st.lastImuTImu >= 0.0)
    decreases |imus|
  {
    hide Inv;
    hide TooFast;
    hide Lead;
    hide Live;
    hide OnOdometry;
    var n := Lead(st.queImu, m.t);
    var before := if n == 0 then None else Some(st.queImu[n - 1].stamp);
    if imus == [] {
      OnOdometryKeeps(st, m, e);
      LiveStarts(st, m, e);
      GoodOutcome(st, m, e);
    } else {
      var front, s := imus[..|imus| - 1], imus[|imus| - 1].sample;
      LiveGoesOn(st, m, e, front);
      var mid := Run(OnOdometry(st, m, e), front);
      LiveOneMore(mid, s, e, before, |st.queImu| - n, st.lastImuTImu >= 0.0);
      assert Run(OnOdometry(st, m, e), imus) == OnImu(mid, s);
      assert ImuSamples(imus) == ImuSamples(front) + [s];
      assert OnImu(mid, s).queImu == mid.queImu + [s];
    }
  }

  lemma LiveOneMore(st: State, s: Sample, e: Estimate, before: Option<real>, left: nat, warm: bool)
    requires Inv(st) && Live(st, e, before, left, warm) && s.stamp >= 0.0
    ensures Inv(OnImu(st, s)) && Live(OnImu(st, s), e, before, left, warm)
  {
    OnImuKeeps(st, s);
    QueueStamps(st);
    hide Inv;
    assert st.queImu != [];
    LiveNext(st, s, e, before, left, warm);
    hide Live;
    hide OnImu;
  }

  lemma QueueStamps(st: State)
    requires LiveOk(st)
    ensures forall k :: 0 <= k < |st.queImu| ==> st.queImu[k].stamp >= 0.0
  {
    assert forall k :: 0 <= k < |st.queImu| ==> st.queImu[k] == st.log.arrived[|st.log.arrived| - |st.queImu| + k];
  }

  /** After a good correction that takes some samples and leaves some, the live integrator spans
      exactly the time from the last one taken to the last one queued. */
  lemma LiveSpan(st: State, m: Correction, e: Estimate)
    requires Inv(st) && st.systemInitialized && st.queOpt != [] && !TooFast(e)
    requires 0 < Lead(st.queImu, m.t) < |st.queImu|
    ensures Duration(OnOdometry(st, m, e).integratorImu.steps)
         == st.queImu[|st.queImu| - 1].stamp - st.queImu[Lead(st.queImu, m.t) - 1].stamp
  {
    hide Inv;
    hide OnOdometry;
    hide TooFast;
    hide Lead;
    hide Steps;
    hide Duration;
    LastLive(st);
    GoodOutcome(st, m, e);
    var n := Lead(st.queImu, m.t);
    FactorSpansItsSamples(st.queImu[n..], st.queImu[n - 1].stamp);
  }

  /** In every run the live queue was cut behind the sample that arrived just before it, or the cut
      took none. */
  lemma CutIsTheSampleBefore(evs: seq<Event>)
    requires Timed(evs)
    ensures var st := Run(INITIAL, evs); var all := ImuSamples(evs);
      && |st.queImu| <= |all| && st.queImu == all[|all| - |st.queImu|..]
      && if st.cut.gone == 0 then st.cut.at == -1.0
         else |st.queImu| < |all| && st.cut.at == all[|all| - |st.queImu| - 1].stamp
  {
    RunKeepsInv(evs);
    ArrivedAreImuSamples(evs);
    hide Run;
    hide LiveAgrees;
    hide Accounted;
    hide ChainOk;
  }

  // ---------------------------------------------------------------------------
  // Where agreement stops, and what the factors span

  /** The first live sample after the first correction keeps agreement exactly when it really
      came 1/500 s after the sample before it. */
  lemma FirstLiveSample(st: State, s: Sample)
    requires st.doneFirstOpt && st.queImu != [] && st.lastImuTImu < 0.0 && Agrees(st)
    requires forall k :: 0 <= k < |st.queImu| ==> st.queImu[k].stamp >= 0.0
    ensures Agrees(OnImu(st, s)) <==> s.stamp - st.queImu[|st.queImu| - 1].stamp == DEFAULT_DT
  {
    StepsAppend(st.queImu, s, st.cut.at);
    var steps := Steps(st.queImu, st.cut.at);
    var real0, live := StepOf(s, LastStamp(st.queImu, st.cut.at)), StepOf(s, st.lastImuTImu);
    assert (steps + [live])[|steps|] == live && (steps + [real0])[|steps|] == real0;
  }

  /** A correction that leaves no sample does not reset the live integrator: it agrees
      afterwards only if it was empty and already at the new bias. */
  lemma EmptyCorrectionGoesStale(st: State, m: Correction, e: Estimate)
    requires !Failure(e) && Lead(st.queImu, m.t) == |st.queImu|
    ensures var next := Correct(st, m, e);
      next.integratorImu == st.integratorImu && (Agrees(next) <==> st.integratorImu == Integrator(e.bias, []))
  {
    hide IntegratedAll;
    assert Steps([], Correct(st, m, e).cut.at) == [];
  }

  lemma RunAppend(st: State, evs: seq<Event>, ev: Event)
    ensures Run(st, evs + [ev]) == Apply(Run(st, evs), ev)
  {
    assert (evs + [ev])[..|evs|] == evs;
  }

  function At(t: real, e: Estimate): Event { Odometry(Correction(t, e.pose, false), e) }

  function UpToSecond(s0: Sample, s1: Sample, e: Estimate): seq<Event> {
    [Imu(s0), At(s0.stamp, e), Imu(s1)]
  }

  function TwoCorrections(s0: Sample, s1: Sample, t1: real, t2: real, e: Estimate): seq<Event> {
    UpToSecond(s0, s1, e) + [At(t1, e)] + [At(t2, e)]
  }

  lemma TwoCorrectionsTimed(s0: Sample, s1: Sample, t1: real, t2: real, e: Estimate)
    requires 0.0 <= s0.stamp && 0.0 <= s1.stamp
    ensures Timed(TwoCorrections(s0, s1, t1, t2, e))
  {
    var evs := TwoCorrections(s0, s1, t1, t2, e);
    assert evs == [Imu(s0), At(s0.stamp, e), Imu(s1), At(t1, e), At(t2, e)];
    hide TwoCorrections;
    assert evs[0] == Imu(s0) && evs[2] == Imu(s1) && !evs[1].Imu? && !evs[3].Imu? && !evs[4].Imu?;
  }

  /** Such runs start with the node: one sample on each side of the first correction, and a
      second correction, with a good estimate, after both. */
  lemma StaleRun(s0: Sample, s1: Sample, t1: real, t2: real, e: Estimate)
    requires 0.0 <= s0.stamp < t1 <= s1.stamp < t2 && !Failure(e)
    ensures var evs := TwoCorrections(s0, s1, t1, t2, e); var end := Run(INITIAL, evs);
      Timed(evs) && end.doneFirstOpt && end.queImu == [] && |end.integratorImu.steps| == 1 && !Agrees(end)
  {
    TwoCorrectionsTimed(s0, s1, t1, t2, e);
    hide Timed;
    var evs := TwoCorrections(s0, s1, t1, t2, e);
    var one := AfterFirst(s0, s1, t1, e);
    hide Run;
    hide Apply;
    hide Agrees;
    hide Failure;
    RunAppend(INITIAL, UpToSecond(s0, s1, e), At(t1, e));
    RunAppend(INITIAL, UpToSecond(s0, s1, e) + [At(t1, e)], At(t2, e));
    SecondCorrection(one, s1, t2, e);
  }

  /** The second correction finds no later sample and keeps what the first left. */
  lemma SecondCorrection(st: State, s: Sample, t: real, e: Estimate)
    requires st.systemInitialized && st.queOpt == [s] == st.queImu && |st.integratorImu.steps| == 1
    requires s.stamp < t && !Failure(e)
    ensures var end := Apply(st, At(t, e));
      end.doneFirstOpt && end.queImu == [] && |end.integratorImu.steps| == 1 && !Agrees(end)
  {
    hide Failure;
    hide IntegratedAll;
    assert Lead([s], t) == 1;
    EmptyCorrectionGoesStale(st, Correction(t, e.pose, false), e);
  }

  /** Up to the first correction, which leaves the second sample. */
  lemma AfterFirst(s0: Sample, s1: Sample, t1: real, e: Estimate) returns (st: State)
    requires 0.0 <= s0.stamp < t1 <= s1.stamp && !Failure(e)
    ensures st == Apply(Run(INITIAL, UpToSecond(s0, s1, e)), At(t1, e))
    ensures st.systemInitialized && st.queOpt == [s1] == st.queImu && |st.integratorImu.steps| == 1
  {
    hide Failure;
    hide IntegratedAll;
    hide DroppedAll;
    RunAppend(INITIAL, [], Imu(s0));
    RunAppend(INITIAL, [Imu(s0)], At(s0.stamp, e));
    RunAppend(INITIAL, [Imu(s0), At(s0.stamp, e)], Imu(s1));
    var before := Run(INITIAL, [Imu(s0), At(s0.stamp, e), Imu(s1)]);
    assert [] + [Imu(s0)] == [Imu(s0)] && [Imu(s0)] + [At(s0.stamp, e)] == [Imu(s0), At(s0.stamp, e)];
    assert [Imu(s0), At(s0.stamp, e)] + [Imu(s1)] == [Imu(s0), At(s0.stamp, e), Imu(s1)];
    assert before.systemInitialized && before.queOpt == [s0, s1] == before.queImu;
    assert Lead([s0, s1], t1) == 1 by { assert [s0, s1][1..] == [s1]; }
    assert [s0, s1][1..] == [s1];
    st := Apply(before, At(t1, e));
  }

  /** The re-propagated integrator agrees after every correction that leaves a sample. */
  lemma CorrectionAgrees(st: State, m: Correction, e: Estimate)
    requires !Failure(e) && Lead(st.queImu, m.t) < |st.queImu|
    ensures var next := Correct(st, m, e);
      && Agrees(next) && next.prevBiasOdom == e.bias && next.queImu == st.queImu[Lead(st.queImu, m.t)..]
  {
    hide IntegratedAll;
    hide Steps;
  }

  /** Before each update the new variable is missing and the one it hangs on is there. */
  lemma FactorsNameVariables(st: State)
    requires KeysOk(st) && st.systemInitialized
    ensures var r := Recycle(st);
      1 <= r.key < KEY_LIMIT && r.key !in r.vars && r.key - 1 in r.vars && r.vars <= Keys(KEY_LIMIT)
  {}

  /** The measurements of one factor span exactly the time from the last sample before them to
      the last of them. */
  lemma {:induction false} FactorSpansItsSamples(q: seq<Sample>, last: real)
    requires last >= 0.0 && forall k :: 0 <= k < |q| ==> q[k].stamp >= 0.0
    ensures Duration(Steps(q, last)) == LastStamp(q, last) - last
    decreases |q|
  {
    if q != [] {
      var front := q[..|q| - 1];
      FactorSpansItsSamples(front, last);
      assert Steps(q, last)[..|q| - 1] == Steps(front, last);
    }
  }

  // ---------------------------------------------------------------------------
  // The node as an object

  lemma {:induction false} LeadIs(q: seq<Sample>, t: real, n: nat)
    requires n <= |q| && (forall k :: 0 <= k < n ==> q[k].stamp < t) && (n < |q| ==> q[n].stamp >= t)
    ensures Lead(q, t) == n
  {
    var m := Lead(q, t);
    LeadMeaning(q, t);
    if m < n {
    } else if n < m {
    }
  }

  function KeysOfFactor(f: Factor): set<int> {
    match f
    case Prior(k, _) => {k}
    case ImuFactor(a, b, _) => {a, b}
    case BiasBetween(a, b, _) => {a, b}
    case PosePrior(k, _, _) => {k}
  }

  lemma InvKeys(st: State)
    requires Inv(st)
    ensures KeysOk(st)
  {}

  class IMUPreintegration {
    var systemInitialized: bool
    var doneFirstOpt: bool
    var lastImuTImu: real
    var lastImuTOpt: real
    var key: nat
    var imuQueOpt: seq<Sample>
    var imuQueImu: seq<Sample>
    var imuIntegratorOpt: Integrator
    var imuIntegratorImu: Integrator
    var prevBias: Bias
    var prevBiasOdom: Bias
    var prevPose: Pose
    var optimizerVars: set<nat>
    var optimizerFactors: seq<Factor>
    var graphFactors: seq<Factor>
    var graphValues: set<nat>
    ghost var log: Log
    ghost var cut: Cut

    ghost function Now(): State
      reads this
    {
      State(systemInitialized, doneFirstOpt, lastImuTImu, lastImuTOpt, key, imuQueOpt, imuQueImu,
        imuIntegratorOpt, imuIntegratorImu, prevPose, prevBias, prevBiasOdom, optimizerVars, optimizerFactors,
        log, cut)
    }

    ghost predicate Valid()
      reads this
    {
      Inv(Now()) && graphFactors == [] && graphValues == {}
    }

    constructor ()
      ensures Valid() && Now() == INITIAL
    {
      systemInitialized, doneFirstOpt, lastImuTImu, lastImuTOpt, key := false, false, -1.0, -1.0, 1;
      imuQueOpt, imuQueImu := [], [];
      imuIntegratorOpt, imuIntegratorImu := Integrator(ZERO_BIAS, []), Integrator(ZERO_BIAS, []);
      prevPose, prevBias, prevBiasOdom := ZERO_POSE, ZERO_BIAS, ZERO_BIAS;
      optimizerFactors := [];
      optimizerVars, graphFactors, graphValues := {}, [], {};
      log, cut := Log([], [], []), Cut(-1.0, 0, false, false, 0);
      assert Samples([]) == [];
    }

    method ImuHandler(s: Sample)
      requires Valid() && s.stamp >= 0.0
      modifies this
      ensures Valid() && Now() == OnImu(old(Now()), s)
    {
      hide Inv;
      OnImuKeeps(Now(), s);
      imuQueOpt := imuQueOpt + [s];
      imuQueImu := imuQueImu + [s];
      log := log.(arrived := log.arrived + [s]);
      if !doneFirstOpt { return; }
      var dt := if lastImuTImu < 0.0 then DEFAULT_DT else s.stamp - lastImuTImu;
      lastImuTImu := s.stamp;
      imuIntegratorImu := Integrator(imuIntegratorImu.bias,
        imuIntegratorImu.steps + [Step(s.acceleration, s.angularVelocity, dt)]);
    }

    method ResetOptimization()
      modifies this`optimizerVars, this`optimizerFactors, this`graphFactors, this`graphValues
      ensures optimizerVars == {} && optimizerFactors == [] && graphFactors == [] && graphValues == {}
    {
      optimizerFactors := [];
      optimizerVars, graphFactors, graphValues := {}, [], {};
    }

    /** The optimiser takes the pending factors and values. It refuses a value it already has
        and a factor on a variable it does not know. */
    method UpdateOptimizer()
      requires graphValues * optimizerVars == {}
      requires forall f :: f in graphFactors ==> KeysOfFactor(f) <= optimizerVars + graphValues
      modifies this`optimizerVars, this`optimizerFactors, this`graphFactors, this`graphValues
      ensures optimizerVars == old(optimizerVars + graphValues) && graphFactors == [] && graphValues == {}
      ensures optimizerFactors == old(optimizerFactors + graphFactors)
    {
      optimizerFactors := optimizerFactors + graphFactors;
      optimizerVars := optimizerVars + graphValues;
      graphFactors, graphValues := [], {};
    }

    /** A fresh graph with one prior at key 0. */
    method StartGraph(pose: Pose)
      modifies this`optimizerVars, this`optimizerFactors, this`graphFactors, this`graphValues, this`key
      ensures graphFactors == [] && graphValues == {}
      ensures Now() == old(Now()).(vars := {0}, factors := [Prior(0, pose)], key := 1)
    {
      ResetOptimization();
      graphFactors := graphFactors + [Prior(0, pose)];
      graphValues := graphValues + {0};
      UpdateOptimizer();
      key := 1;
    }

    /** Pops what is older than `t` from the optimiser's queue, unread. */
    method DropOld(t: real)
      modifies this`imuQueOpt, this`lastImuTOpt
      ensures var n := Lead(old(imuQueOpt), t);
        Now() == old(Now()).(queOpt := old(imuQueOpt)[n..],
                             lastImuTOpt := LastStamp(old(imuQueOpt)[..n], old(lastImuTOpt)))
    {
      ghost var q, n := imuQueOpt, 0;
      while imuQueOpt != []
        invariant 0 <= n <= |q| && imuQueOpt == q[n..]
        invariant forall k :: 0 <= k < n ==> q[k].stamp < t
        invariant lastImuTOpt == LastStamp(q[..n], old(lastImuTOpt))
        decreases |imuQueOpt|
      {
        if imuQueOpt[0].stamp < t {
          lastImuTOpt := imuQueOpt[0].stamp;
          imuQueOpt := imuQueOpt[1..];
          n := n + 1;
        } else {
          break;
        }
      }
      LeadIs(q, t, n);
    }

    /** Pops the first sample and integrates it for the optimiser. */
    method IntegrateFront()
      requires imuQueOpt != []
      modifies this`imuQueOpt, this`lastImuTOpt, this`imuIntegratorOpt
      ensures var s := old(imuQueOpt)[0];
        && imuQueOpt == old(imuQueOpt)[1..] && lastImuTOpt == s.stamp
        && imuIntegratorOpt == Integrator(old(imuIntegratorOpt).bias,
             old(imuIntegratorOpt).steps + [StepOf(s, old(lastImuTOpt))])
    {
      var thisImu := imuQueOpt[0];
      var dt := if lastImuTOpt < 0.0 then DEFAULT_DT else thisImu.stamp - lastImuTOpt;
      imuIntegratorOpt := Integrator(imuIntegratorOpt.bias,
        imuIntegratorOpt.steps + [Step(thisImu.acceleration, thisImu.angularVelocity, dt)]);
      lastImuTOpt := thisImu.stamp;
      imuQueOpt := imuQueOpt[1..];
    }

    /** Pops what is older than `t` and integrates it for the optimiser. */
    method IntegrateOld(t: real)
      modifies this`imuQueOpt, this`lastImuTOpt, this`imuIntegratorOpt
      ensures var used := old(imuQueOpt)[..Lead(old(imuQueOpt), t)];
        Now() == old(Now()).(
          queOpt := old(imuQueOpt)[|used|..],
          lastImuTOpt := LastStamp(used, old(lastImuTOpt)),
          integratorOpt := Integrator(old(imuIntegratorOpt).bias,
            old(imuIntegratorOpt).steps + Steps(used, old(lastImuTOpt))))
    {
      ghost var q, last, n := imuQueOpt, lastImuTOpt, 0;
      ghost var bias, steps := imuIntegratorOpt.bias, imuIntegratorOpt.steps;
      assert steps + Steps(q[..0], last) == steps;
      hide Steps;
      hide Lead;
      hide StepOf;
      while imuQueOpt != [] && imuQueOpt[0].stamp < t
        invariant 0 <= n <= |q| && imuQueOpt == q[n..]
        invariant forall k :: 0 <= k < n ==> q[k].stamp < t
        invariant lastImuTOpt == LastStamp(q[..n], last)
        invariant imuIntegratorOpt == Integrator(bias, steps + Steps(q[..n], last))
        decreases |imuQueOpt|
      {
        StepsAppend(q[..n], q[n], last);
        assert q[..n + 1] == q[..n] + [q[n]];
        IntegrateFront();
        n := n + 1;
      }
      LeadIs(q, t, n);
    }

    /** Pops what is older than `t` from the live queue. */
    method CutLiveQueue(t: real) returns (lastImuQT: real)
      modifies this`imuQueImu
      ensures var q, n := old(imuQueImu), Lead(old(imuQueImu), t);
        Now() == old(Now()).(queImu := q[n..]) && lastImuQT == LastStamp(q[..n], -1.0)
    {
      ghost var q, n := imuQueImu, 0;
      lastImuQT := -1.0;
      while imuQueImu != [] && imuQueImu[0].stamp < t
        invariant 0 <= n <= |q| && imuQueImu == q[n..]
        invariant forall k :: 0 <= k < n ==> q[k].stamp < t
        invariant lastImuQT == LastStamp(q[..n], -1.0)
        decreases |imuQueImu|
      {
        lastImuQT := imuQueImu[0].stamp;
        imuQueImu := imuQueImu[1..];
        n := n + 1;
      }
      LeadIs(q, t, n);
    }

    /** Resets the live integrator and integrates what is left in its queue. */
    method IntegrateLiveQueue(lastImuQT: real)
      modifies this`imuIntegratorImu
      ensures Now() == old(Now()).(integratorImu := Integrator(prevBiasOdom, Steps(imuQueImu, lastImuQT)))
    {
      var last := lastImuQT;
      imuIntegratorImu := Integrator(prevBiasOdom, []);
      for i := 0 to |imuQueImu|
        invariant imuIntegratorImu == Integrator(prevBiasOdom, Steps(imuQueImu[..i], lastImuQT))
        invariant last == LastStamp(imuQueImu[..i], lastImuQT)
      {
        var thisImu := imuQueImu[i];
        var dt := if last < 0.0 then DEFAULT_DT else thisImu.stamp - last;
        StepsAppend(imuQueImu[..i], thisImu, lastImuQT);
        assert imuQueImu[..i + 1] == imuQueImu[..i] + [thisImu];
        imuIntegratorImu := Integrator(imuIntegratorImu.bias,
          imuIntegratorImu.steps + [Step(thisImu.acceleration, thisImu.angularVelocity, dt)]);
        last := thisImu.stamp;
      }
      assert imuQueImu[..|imuQueImu|] == imuQueImu;
    }

    /** The first message: old samples are dropped and the graph starts at a prior. */
    method InitializeSystem(m: Correction)
      requires graphFactors == [] && graphValues == {}
      modifies this
      ensures graphFactors == [] && graphValues == {} && Now() == Initialize(old(Now()), m)
    {
      hide DroppedAll;
      ghost var gone := DroppedAll(imuQueOpt[..Lead(imuQueOpt, m.t)]);
      DropOld(m.t);
      hide Lead;
      hide LastStamp;
      StartOver(m.pose);
      log := log.(fates := log.fates + gone);
    }

    /** A fresh graph at `pose` and fresh integrators. */
    method StartOver(pose: Pose)
      modifies this
      ensures graphFactors == [] && graphValues == {}
      ensures Now() == old(Now()).(systemInitialized := true, key := 1, vars := {0}, factors := [Prior(0, pose)],
        prevPose := pose, prevBias := ZERO_BIAS,
        integratorImu := Integrator(ZERO_BIAS, []), integratorOpt := Integrator(ZERO_BIAS, []))
    {
      prevPose := pose;
      StartGraph(prevPose);
      SetBiases(ZERO_BIAS);
      systemInitialized := true;
    }

    /** Both integrators and the current bias start over. */
    method SetBiases(bias: Bias)
      modifies this`prevBias, this`imuIntegratorImu, this`imuIntegratorOpt
      ensures Now() == old(Now()).(prevBias := bias, integratorImu := Integrator(bias, []),
                                   integratorOpt := Integrator(bias, []))
    {
      prevBias := bias;
      imuIntegratorImu := Integrator(bias, []);
      imuIntegratorOpt := Integrator(bias, []);
    }

    /** The factors and the value of one correction go to the optimiser. */
    method AddFactors(m: Correction)
      modifies this`graphFactors
      ensures graphFactors == old(graphFactors) + Binding(key, imuIntegratorOpt.steps, m)
    {
      hide Duration;
      graphFactors := graphFactors + [ImuFactor(key - 1, key, imuIntegratorOpt.steps)];
      graphFactors := graphFactors + [BiasBetween(key - 1, key, Duration(imuIntegratorOpt.steps))];
      graphFactors := graphFactors + [PosePrior(key, m.pose, m.degenerate)];
    }

    method AddCorrection(m: Correction)
      requires graphFactors == [] && graphValues == {} && 1 <= key
      requires key !in optimizerVars && key - 1 in optimizerVars
      modifies this`graphFactors, this`graphValues, this`optimizerVars, this`optimizerFactors
      ensures graphFactors == [] && graphValues == {}
      ensures Now() == old(Now()).(vars := old(optimizerVars) + {key},
                                   factors := old(optimizerFactors) + Binding(key, imuIntegratorOpt.steps, m))
    {
      AddFactors(m);
      graphValues := graphValues + {key};
      hide Duration;
      UpdateOptimizer();
    }

    /** Integration, factors and optimisation. */
    method OptimizeOnce(m: Correction, estimate: Estimate)
      requires graphFactors == [] && graphValues == {} && 1 <= key
      requires key !in optimizerVars && key - 1 in optimizerVars
      modifies this
      ensures graphFactors == [] && graphValues == {} && Now() == Optimize(old(Now()), m, estimate)
    {
      hide Steps;
      hide IntegratedAll;
      hide Binding;
      ghost var used := imuQueOpt[..Lead(imuQueOpt, m.t)];
      ghost var gone := IntegratedAll(used, lastImuTOpt);
      hide Lead;
      IntegrateOld(m.t);
      AddCorrection(m);
      Note(gone, imuIntegratorOpt.steps);
      TakeEstimate(estimate);
    }

    ghost method Note(gone: seq<Fate>, steps: seq<Step>)
      modifies this`log
      ensures Now() == old(Now()).(log :=
        old(log).(fates := old(log).fates + gone, imuFactors := old(log).imuFactors + [steps]))
    {
      log := log.(fates := log.fates + gone, imuFactors := log.imuFactors + [steps]);
    }

    /** The optimised pose is kept, and the bias starts the next factor. */
    method TakeEstimate(e: Estimate)
      modifies this`prevPose, this`prevBias, this`imuIntegratorOpt
      ensures Now() == old(Now()).(prevPose := e.pose, prevBias := e.bias, integratorOpt := Integrator(e.bias, []))
    {
      prevPose := e.pose;
      prevBias := e.bias;
      imuIntegratorOpt := Integrator(e.bias, []);
    }

    method RepropagateOnce(t: real)
      modifies this`prevBiasOdom, this`imuQueImu, this`imuIntegratorImu, this`key, this`doneFirstOpt, this`cut
      ensures Now() == Repropagate(old(Now()), t)
    {
      hide Steps;
      ghost var gone := Lead(imuQueImu, t);
      prevBiasOdom := prevBias;
      var lastImuQT := CutLiveQueue(t);
      if imuQueImu != [] { IntegrateLiveQueue(lastImuQT); }
      cut := Cut(lastImuQT, gone, imuQueImu != [], imuQueImu != [] && lastImuTImu >= 0.0, |imuQueImu|);
      key := key + 1;
      doneFirstOpt := true;
    }

    /** Gives up on the current estimate; the queues stay. */
    method Reset()
      modifies this`lastImuTImu, this`doneFirstOpt, this`systemInitialized
      ensures Now() == ResetParams(old(Now()))
    {
      lastImuTImu, doneFirstOpt, systemInitialized := -1.0, false, false;
    }

    /** The old graph makes room once it is full. */
    method RecycleOnce()
      requires graphFactors == [] && graphValues == {}
      modifies this`optimizerVars, this`optimizerFactors, this`graphFactors, this`graphValues, this`key
      ensures graphFactors == [] && graphValues == {} && Now() == Recycle(old(Now()))
    {
      if key == KEY_LIMIT { StartGraph(prevPose); }
    }

    /** A correction of an initialised system. */
    method CorrectOnce(m: Correction, estimate: Estimate)
      requires KeysOk(Now()) && systemInitialized && graphFactors == [] && graphValues == {}
      modifies this
      ensures graphFactors == [] && graphValues == {} && Now() == Correct(old(Now()), m, estimate)
    {
      FactorsNameVariables(Now());
      hide Failure;
      hide Optimize;
      hide Repropagate;
      hide KeysOk;
      hide ResetParams;
      hide Keys;
      ghost var r := Recycle(Now());
      assert r.key !in r.vars && r.key - 1 in r.vars && 1 <= r.key;
      hide Recycle;
      RecycleOnce();
      OptimizeOnce(m, estimate);
      if Failure(estimate) {
        Reset();
      } else {
        RepropagateOnce(m.t);
      }
    }

    /** One lidar correction; `estimate` is what the optimiser answers. */
    method OdometryHandler(m: Correction, estimate: Estimate)
      requires Valid()
      modifies this
      ensures Valid() && Now() == OnOdometry(old(Now()), m, estimate)
    {
      hide Inv;
      hide Initialize;
      hide Correct;
      OnOdometryKeeps(Now(), m, estimate);
      if imuQueOpt == [] { return; }
      if !systemInitialized {
        InitializeSystem(m);
      } else {
        InvKeys(Now());
        CorrectOnce(m, estimate);
      }
    }
  }
}
