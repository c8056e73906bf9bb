/** The pool of point-cloud messages of source_driver.hpp: the driver takes a message from the
    free queue, or a new one when there is none, fills it and puts it on the stuffed queue; a
    second thread takes it from there, sends it, and returns it to the free queue. Each queue is
    pushed by one thread and popped by the other. */
module PointCloudPool {
  import opened Basics
  import Q = SyncQueue

  /** Slots of each queue, one of which stays empty. */
  const CAPACITY: nat := 102400

  type Message = nat

  /** Messages are numbered as they are made. History: what was accepted by the stuffed queue,
      what was taken from it, what a full queue refused, and the most ever outstanding. */
  datatype State = State(
    idle: seq<Message>, driver: seq<Message>, stuffed: seq<Message>, consumer: Option<Message>,
    made: nat, accepted: seq<Message>, taken: seq<Message>, dropped: seq<Message>, peak: nat)
  {
    function Held(): seq<Message> { if consumer.Some? then [consumer.value] else [] }

    function Outstanding(): nat { |driver| + |stuffed| + |Held()| }

    /** Every place a message can be. */
    function Places(): multiset<Message> {
      multiset(idle) + multiset(driver) + multiset(stuffed) + multiset(Held()) + multiset(dropped)
    }
  }

  const INITIAL: State := State([], [], [], None, 0, [], [], [], 0)

  function Without<T>(s: seq<T>, i: nat): seq<T>
    requires i < |s|
  {
    s[..i] + s[i + 1..]
  }

  function Max(a: nat, b: nat): nat { if a < b then b else a }

  function Get(st: State): State {
    var next :=
      if st.idle != [] then st.(driver := st.driver + [st.idle[0]], idle := st.idle[1..])
      else st.(driver := st.driver + [st.made], made := st.made + 1);
    next.(peak := Max(st.peak, next.Outstanding()))
  }

  /** The result of a push to a full queue is not looked at. */
  function Put(st: State, i: nat): State
    requires i < |st.driver|
  {
    var m, rest := st.driver[i], Without(st.driver, i);
    if |st.stuffed| < CAPACITY - 1 then st.(driver := rest, stuffed := st.stuffed + [m], accepted := st.accepted + [m])
    else st.(driver := rest, dropped := st.dropped + [m])
  }

  /** Nothing is taken when the wait runs out. */
  function Take(st: State): State
    requires st.consumer.None?
  {
    if st.stuffed == [] then st
    else st.(consumer := Some(st.stuffed[0]), stuffed := st.stuffed[1..], taken := st.taken + [st.stuffed[0]])
  }

  function Return(st: State): State
    requires st.consumer.Some?
  {
    var m := st.consumer.value;
    if |st.idle| < CAPACITY - 1 then st.(consumer := None, idle := st.idle + [m])
    else st.(consumer := None, dropped := st.dropped + [m])
  }

  datatype Event = GetCloud | PutCloud(i: nat) | TakeCloud | ReturnCloud

  predicate Possible(st: State, ev: Event) {
    match ev
    case GetCloud => true
    case PutCloud(i) => i < |st.driver|
    case TakeCloud => st.consumer.None?
    case ReturnCloud => st.consumer.Some?
  }

  function Apply(st: State, ev: Event): State
    requires Possible(st, ev)
  {
    match ev
    case GetCloud => Get(st)
    case PutCloud(i) => Put(st, i)
    case TakeCloud => Take(st)
    case ReturnCloud => Return(st)
  }

  /** Any interleaving of the two threads; a step that cannot be taken changes nothing. */
  function Run(evs: seq<Event>): State
    decreases |evs|
  {
    if evs == [] then INITIAL
    else
      var before, ev := Run(evs[..|evs| - 1]), evs[|evs| - 1];
      if Possible(before, ev) then Apply(before, ev) else before
  }

  /** The numbers given out so far. */
  function Numbers(n: nat): seq<Message>
    decreases n
  {
    if n == 0 then [] else Numbers(n - 1) + [n - 1]
  }

  /** Each message made is in one place. */
  predicate PlacesOk(st: State) {
    st.Places() == multiset(Numbers(st.made))
  }

  predicate CountsOk(st: State) {
    && |st.idle| + st.Outstanding() + |st.dropped| == st.made
    && st.Outstanding() <= st.peak <= st.made <= st.peak + |st.dropped|
    && |st.idle| < CAPACITY && |st.stuffed| < CAPACITY
    && (st.peak < CAPACITY ==> st.dropped == [])
  }

  /** What was accepted has been taken or waits, in order. */
  predicate InOrder(st: State) {
    st.accepted == st.taken + st.stuffed
  }

  predicate Inv(st: State) {
    PlacesOk(st) && CountsOk(st) && InOrder(st)
  }

  lemma Appended(s: seq<Message>, m: Message)
    ensures multiset(s + [m]) == multiset(s) + multiset{m}
  {}

  lemma Split(s: seq<Message>, i: nat)
    requires i < |s|
    ensures multiset(s) == multiset(Without(s, i)) + multiset{s[i]} && |Without(s, i)| == |s| - 1
  {
    assert s == s[..i] + [s[i]] + s[i + 1..];
  }

  lemma SplitFirst(s: seq<Message>)
    requires s != []
    ensures multiset(s) == multiset(s[1..]) + multiset{s[0]}
  {
    assert s == [s[0]] + s[1..];
  }

  lemma GetIdlePlaces(st: State)
    requires st.idle != []
    ensures Get(st).Places() == st.Places() && Get(st).made == st.made
  {
    SplitFirst(st.idle);
    Appended(st.driver, st.idle[0]);
    hide Max;
  }

  lemma GetNewPlaces(st: State)
    requires st.idle == []
    ensures Get(st).Places() == st.Places() + multiset{st.made} && Get(st).made == st.made + 1
  {
    Appended(st.driver, st.made);
    hide Max;
  }

  lemma GetPlaces(st: State)
    requires PlacesOk(st)
    ensures PlacesOk(Get(st))
  {
    if st.idle != [] {
      GetIdlePlaces(st);
    } else {
      GetNewPlaces(st);
      Appended(Numbers(st.made), st.made);
      assert Numbers(st.made + 1) == Numbers(st.made) + [st.made];
    }
    hide Get;
    hide Numbers;
  }

  lemma PutPlaces(st: State, i: nat)
    requires PlacesOk(st) && i < |st.driver|
    ensures PlacesOk(Put(st, i))
  {
    Split(st.driver, i);
    Appended(st.stuffed, st.driver[i]);
    Appended(st.dropped, st.driver[i]);
    hide Without;
    hide Numbers;
  }

  lemma TakePlaces(st: State)
    requires PlacesOk(st) && st.consumer.None?
    ensures PlacesOk(Take(st))
  {
    if st.stuffed != [] { SplitFirst(st.stuffed); }
    hide Numbers;
  }

  lemma ReturnPlaces(st: State)
    requires PlacesOk(st) && st.consumer.Some?
    ensures PlacesOk(Return(st))
  {
    Appended(st.idle, st.consumer.value);
    Appended(st.dropped, st.consumer.value);
    hide Numbers;
  }

  lemma GetCounts(st: State)
    requires CountsOk(st) && InOrder(st)
    ensures CountsOk(Get(st)) && InOrder(Get(st))
  {
  }

  lemma PutCounts(st: State, i: nat)
    requires CountsOk(st) && InOrder(st) && i < |st.driver|
    ensures CountsOk(Put(st, i)) && InOrder(Put(st, i))
  {
    assert st.taken + (st.stuffed + [st.driver[i]]) == st.taken + st.stuffed + [st.driver[i]];
  }

  lemma TakeCounts(st: State)
    requires CountsOk(st) && InOrder(st) && st.consumer.None?
    ensures CountsOk(Take(st)) && InOrder(Take(st))
  {
    if st.stuffed != [] {
      assert st.taken + st.stuffed == st.taken + [st.stuffed[0]] + st.stuffed[1..];
    }
  }

  lemma ReturnCounts(st: State)
    requires CountsOk(st) && InOrder(st) && st.consumer.Some?
    ensures CountsOk(Return(st)) && InOrder(Return(st))
  {
  }

  lemma GetKeeps(st: State)
    requires Inv(st)
    ensures Inv(Get(st))
  {
    GetPlaces(st);
    GetCounts(st);
    hide PlacesOk;
    hide CountsOk;
    hide InOrder;
    hide Get;
  }

  lemma PutKeeps(st: State, i: nat)
    requires Inv(st) && i < |st.driver|
    ensures Inv(Put(st, i))
  {
    PutPlaces(st, i);
    PutCounts(st, i);
    hide PlacesOk;
    hide CountsOk;
    hide InOrder;
    hide Put;
  }

  lemma TakeKeeps(st: State)
    requires Inv(st) && st.consumer.None?
    ensures Inv(Take(st))
  {
    TakePlaces(st);
    TakeCounts(st);
    hide PlacesOk;
    hide CountsOk;
    hide InOrder;
    hide Take;
  }

  lemma ReturnKeeps(st: State)
    requires Inv(st) && st.consumer.Some?
    ensures Inv(Return(st))
  {
    ReturnPlaces(st);
    ReturnCounts(st);
    hide PlacesOk;
    hide CountsOk;
    hide InOrder;
    hide Return;
  }

  lemma ApplyKeeps(st: State, ev: Event)
    requires Inv(st) && Possible(st, ev)
    ensures Inv(Apply(st, ev))
  {
    match ev
    case GetCloud => GetKeeps(st);
    case PutCloud(i) => PutKeeps(st, i);
    case TakeCloud => TakeKeeps(st);
    case ReturnCloud => ReturnKeeps(st);
  }

  lemma {:induction false} RunKeeps(evs: seq<Event>)
    ensures Inv(Run(evs))
    decreases |evs|
  {
    if evs != [] {
      RunKeeps(evs[..|evs| - 1]);
      var before, ev := Run(evs[..|evs| - 1]), evs[|evs| - 1];
      if Possible(before, ev) { ApplyKeeps(before, ev); }
      hide Inv;
      hide Apply;
    }
  }

  lemma {:induction false} NumbersOnce(n: nat, m: Message)
    ensures multiset(Numbers(n))[m] == if m < n then 1 else 0
    decreases n
  {
    if n > 0 { NumbersOnce(n - 1, m); }
  }

  /** In every run each message made is in exactly one place, once: the free queue, the driver,
      the stuffed queue, the consumer, or among those a full queue refused. */
  lemma {:induction false} OnePlaceEach(evs: seq<Event>, m: Message)
    ensures var st := Run(evs);
      multiset(st.idle)[m] + multiset(st.driver)[m] + multiset(st.stuffed)[m] + multiset(st.Held())[m]
        + multiset(st.dropped)[m] == if m < st.made then 1 else 0
  {
    RunKeeps(evs);
    NumbersOnce(Run(evs).made, m);
  }

  /** Messages are delivered in the order they were put. */
  lemma {:induction false} DeliveredInOrder(evs: seq<Event>)
    ensures Run(evs).taken <= Run(evs).accepted && Run(evs).accepted == Run(evs).taken + Run(evs).stuffed
  {
    RunKeeps(evs);
  }

  /** As long as fewer messages than a queue has slots were ever outstanding, nothing is refused,
      and the messages ever made are exactly the most ever outstanding at once. */
  lemma AllocationsAreThePeak(evs: seq<Event>)
    ensures var st := Run(evs);
      && (st.peak < CAPACITY ==> st.dropped == [])
      && (st.dropped == [] ==> st.made == st.peak)
      && st.peak <= st.made <= st.peak + |st.dropped|
  {
    RunKeeps(evs);
  }

  /** One step raises the peak only to what is then outstanding. */
  lemma ApplyPeak(st: State, ev: Event)
    requires Possible(st, ev) && CountsOk(st)
    ensures var next := Apply(st, ev);
      && next.Outstanding() <= next.peak && st.peak <= next.peak
      && (next.peak == st.peak || next.peak == next.Outstanding())
  {
    match ev
    case GetCloud =>
    case PutCloud(i) => PutOutstanding(st, i);
    case TakeCloud =>
    case ReturnCloud =>
  }

  lemma PutOutstanding(st: State, i: nat)
    requires i < |st.driver|
    ensures Put(st, i).Outstanding() <= st.Outstanding() && Put(st, i).peak == st.peak
  {}

  predicate Reached(evs: seq<Event>, k: nat)
    requires k <= |evs|
  {
    Run(evs[..k]).Outstanding() == Run(evs).peak
  }

  predicate Passed(evs: seq<Event>, k: nat)
    requires k <= |evs|
  {
    Run(evs[..k]).Outstanding() > Run(evs).peak
  }

  lemma {:induction false} PeakIsReached(evs: seq<Event>) returns (k: nat)
    ensures k <= |evs| && Reached(evs, k)
    decreases |evs|
  {
    if evs == [] { return 0; }
    var front, ev := evs[..|evs| - 1], evs[|evs| - 1];
    var before := Run(front);
    RunKeeps(front);
    k := PeakIsReached(front);
    assert evs[..k] == front[..k] && evs[..|evs|] == evs;
    if Possible(before, ev) {
      ApplyPeak(before, ev);
      if Run(evs).peak != before.peak { k := |evs|; }
    }
    hide Apply;
    hide Possible;
    hide PlacesOk;
  }

  lemma {:induction false} PeakIsNotPassed(evs: seq<Event>, k: nat)
    requires k <= |evs|
    ensures !Passed(evs, k)
    decreases |evs|
  {
    RunKeeps(evs);
    assert evs[..|evs|] == evs;
    if k < |evs| {
      var front, ev := evs[..|evs| - 1], evs[|evs| - 1];
      RunKeeps(front);
      PeakIsNotPassed(front, k);
      assert evs[..k] == front[..k];
      if Possible(Run(front), ev) { ApplyPeak(Run(front), ev); }
    }
    hide Apply;
    hide Possible;
    hide PlacesOk;
  }

  /** `peak` is the most ever outstanding: reached at some point of the run, passed at none. */
  lemma PeakIsTheMost(evs: seq<Event>)
    ensures exists k: nat :: k <= |evs| && Reached(evs, k)
    ensures forall k: nat :: k <= |evs| ==> !Passed(evs, k)
  {
    var k := PeakIsReached(evs);
    forall j: nat | j <= |evs| ensures !Passed(evs, j) { PeakIsNotPassed(evs, j); }
    hide Reached;
    hide Passed;
  }

  // ---------------------------------------------------------------------------
  // The same pool load by load

  /** Both queues with the two threads inside them, and the place of the message being put. */
  datatype Fine = Fine(
    free: Q.State<Message>, full: Q.State<Message>, place: nat,
    driver: seq<Message>, consumer: Option<Message>, made: nat)

  /** A push begins with a message its thread holds; the other loads and stores follow. */
  datatype Move = BeginPut(place: nat) | BeginReturn | OnStuffed(step: Q.Step<Message>) | OnFree(step: Q.Step<Message>)

  /** The consumer takes a message only when it holds none. */
  predicate CanMove(f: Fine, move: Move) {
    match move
    case BeginPut(place) => f.full.producer.Resting? && place < |f.driver|
    case BeginReturn => f.free.producer.Resting? && f.consumer.Some?
    case OnStuffed(step) => !step.Begin? && Q.Possible(f.full, step) && (step.LoadHead? ==> f.consumer.None?)
    case OnFree(step) => !step.Begin? && Q.Possible(f.free, step)
  }

  function AfterStuffed(f: Fine, call: Option<Q.Call<Message>>): Fine {
    match call
    case Some(Popped(m)) => f.(consumer := Some(m))
    case Some(Pushed(_)) => f.(driver := Drop(f.driver, f.place))
    case Some(Refused(_)) => f.(driver := Drop(f.driver, f.place))
    case _ => f
  }

  function AfterFree(f: Fine, call: Option<Q.Call<Message>>): Fine {
    match call
    case Some(Popped(m)) => f.(driver := f.driver + [m])
    case Some(NothingFound) => f.(driver := f.driver + [f.made], made := f.made + 1)
    case Some(_) => f.(consumer := None)
    case None => f
  }

  function Drop(s: seq<Message>, i: nat): seq<Message> {
    if i < |s| then Without(s, i) else s
  }

  function Moved(f: Fine, move: Move): Fine
    requires CanMove(f, move)
  {
    match move
    case BeginPut(place) => f.(full := Q.Next(f.full, Q.Begin(f.driver[place])), place := place)
    case BeginReturn => f.(free := Q.Next(f.free, Q.Begin(f.consumer.value)))
    case OnStuffed(step) => AfterStuffed(f, Q.Effect(f.full, step)).(full := Q.Next(f.full, step))
    case OnFree(step) => AfterFree(f, Q.Effect(f.free, step)).(free := Q.Next(f.free, step))
  }

  /** The event that happens as a whole at this move, if one does. */
  function EventAt(f: Fine, move: Move): Option<Event>
    requires CanMove(f, move)
  {
    match move
    case BeginPut(_) => None
    case BeginReturn => None
    case OnStuffed(step) => (
      match Q.Effect(f.full, step)
      case None => None
      case Some(call) => Some(if call.Pushed? || call.Refused? then PutCloud(f.place) else TakeCloud))
    case OnFree(step) => (
      match Q.Effect(f.free, step)
      case None => None
      case Some(call) => Some(if call.Pushed? || call.Refused? then ReturnCloud else GetCloud))
  }

  /** Any interleaving of the loads and stores of both threads on both queues. */
  function FineRun(free: seq<Message>, full: seq<Message>, moves: seq<Move>): Fine
    decreases |moves|
  {
    if moves == [] then Fine(Q.Start(free), Q.Start(full), 0, [], None, 0)
    else
      var before, move := FineRun(free, full, moves[..|moves| - 1]), moves[|moves| - 1];
      if CanMove(before, move) then Moved(before, move) else before
  }

  function EventsOf(free: seq<Message>, full: seq<Message>, moves: seq<Move>): seq<Event>
    decreases |moves|
  {
    if moves == [] then []
    else
      var front, move := moves[..|moves| - 1], moves[|moves| - 1];
      var before := FineRun(free, full, front);
      var event := if CanMove(before, move) then EventAt(before, move) else None;
      if event.Some? then EventsOf(free, full, front) + [event.value] else EventsOf(free, full, front)
  }

  /** The queues hold, and the threads have, what `st` says. */
  ghost predicate Shows(f: Fine, st: State) {
    && f.free.ring.Valid() && f.full.ring.Valid()
    && st.idle == f.free.ring.Contents() && st.stuffed == f.full.ring.Contents()
    && st.driver == f.driver && st.consumer == f.consumer && st.made == f.made
  }

  /** A thread still holds the message it is pushing, and none while it pops the stuffed queue. */
  predicate Holding(f: Fine) {
    && (!f.full.producer.Resting? ==> f.place < |f.driver| && f.driver[f.place] == f.full.producer.value)
    && (!f.free.producer.Resting? ==> f.consumer == Some(f.free.producer.value))
    && (!f.full.consumer.Waiting? ==> f.consumer.None?)
  }

  ghost predicate FineOk(f: Fine) {
    && Q.Inv(f.free) && Q.Inv(f.full) && Holding(f)
    && |f.free.ring.buffer| == CAPACITY == |f.full.ring.buffer|
  }

  /** What the event makes of `st`. */
  function Happens(st: State, event: Option<Event>): State
    requires event.Some? ==> Possible(st, event.value)
  {
    if event.Some? then Apply(st, event.value) else st
  }

  lemma BeginIsSilent(f: Fine, st: State, move: Move)
    requires FineOk(f) && Shows(f, st) && CanMove(f, move) && (move.BeginPut? || move.BeginReturn?)
    ensures FineOk(Moved(f, move)) && Shows(Moved(f, move), st) && EventAt(f, move) == None
  {
    if move.BeginPut? {
      Q.StepTakesEffect(f.full, Q.Begin(f.driver[move.place]));
    } else {
      Q.StepTakesEffect(f.free, Q.Begin(f.consumer.value));
    }
    hide Q.Inv;
  }

  lemma StuffedStepIsEvent(f: Fine, st: State, step: Q.Step<Message>)
    requires FineOk(f) && Shows(f, st) && CanMove(f, OnStuffed(step))
    ensures var event := EventAt(f, OnStuffed(step));
      && (event.Some? ==> Possible(st, event.value))
      && FineOk(Moved(f, OnStuffed(step))) && Shows(Moved(f, OnStuffed(step)), Happens(st, event))
  {
    Q.StepTakesEffect(f.full, step);
    hide Q.Inv;
    hide Without;
  }

  lemma FreeStepIsEvent(f: Fine, st: State, step: Q.Step<Message>)
    requires FineOk(f) && Shows(f, st) && CanMove(f, OnFree(step))
    ensures var event := EventAt(f, OnFree(step));
      && (event.Some? ==> Possible(st, event.value))
      && FineOk(Moved(f, OnFree(step))) && Shows(Moved(f, OnFree(step)), Happens(st, event))
  {
    Q.StepTakesEffect(f.free, step);
    hide Q.Inv;
    hide Max;
  }

  lemma MoveIsEvent(f: Fine, st: State, move: Move)
    requires FineOk(f) && Shows(f, st) && CanMove(f, move)
    ensures EventAt(f, move).Some? ==> Possible(st, EventAt(f, move).value)
    ensures FineOk(Moved(f, move)) && Shows(Moved(f, move), Happens(st, EventAt(f, move)))
  {
    hide FineOk;
    hide Shows;
    hide Moved;
    match move
    case OnStuffed(step) => StuffedStepIsEvent(f, st, step);
    case OnFree(step) => FreeStepIsEvent(f, st, step);
    case _ => BeginIsSilent(f, st, move);
  }

  lemma StartOk(free: seq<Message>, full: seq<Message>)
    requires |free| == CAPACITY == |full|
    ensures FineOk(FineRun(free, full, [])) && Shows(FineRun(free, full, []), INITIAL)
  {}

  lemma RunAppend(evs: seq<Event>, ev: Event)
    requires Possible(Run(evs), ev)
    ensures Run(evs + [ev]) == Apply(Run(evs), ev)
  {
    assert (evs + [ev])[..|evs|] == evs;
  }

  /** Taken load by load, in any interleaving, the pool is always where a run of whole events
      takes it, so what holds in every such run holds of the queues and threads as they are. */
  lemma {:induction false} LoadByLoad(free: seq<Message>, full: seq<Message>, moves: seq<Move>)
    requires |free| == CAPACITY == |full|
    ensures FineOk(FineRun(free, full, moves))
    ensures Shows(FineRun(free, full, moves), Run(EventsOf(free, full, moves)))
    decreases |moves|
  {
    hide FineOk;
    hide Shows;
    hide Moved;
    hide EventAt;
    hide CanMove;
    hide Apply;
    hide Possible;
    if moves == [] {
      StartOk(free, full);
    } else {
      var front, move := moves[..|moves| - 1], moves[|moves| - 1];
      LoadByLoad(free, full, front);
      var before, evs := FineRun(free, full, front), EventsOf(free, full, front);
      if CanMove(before, move) {
        MoveIsEvent(before, Run(evs), move);
        if EventAt(before, move).Some? { RunAppend(evs, EventAt(before, move).value); }
      }
    }
  }

  // ---------------------------------------------------------------------------
  // The driver as an object

  class SourceDriver {
    const freePointCloudQueue: Q.Queue<Message>
    const pointCloudQueue: Q.Queue<Message>
    var made: nat
    ghost var driver: seq<Message>
    ghost var consumer: Option<Message>
    ghost var accepted: seq<Message>
    ghost var taken: seq<Message>
    ghost var dropped: seq<Message>
    ghost var peak: nat

    ghost predicate Shaped()
      reads this, freePointCloudQueue, freePointCloudQueue.buffer, pointCloudQueue, pointCloudQueue.buffer
    {
      && freePointCloudQueue != pointCloudQueue && freePointCloudQueue.buffer != pointCloudQueue.buffer
      && freePointCloudQueue.Valid() && pointCloudQueue.Valid()
      && freePointCloudQueue.Capacity() == CAPACITY == pointCloudQueue.Capacity()
    }

    ghost function Now(): State
      requires Shaped()
      reads this, freePointCloudQueue, freePointCloudQueue.buffer, pointCloudQueue, pointCloudQueue.buffer
    {
      State(freePointCloudQueue.Contents(), driver, pointCloudQueue.Contents(), consumer,
        made, accepted, taken, dropped, peak)
    }

    ghost predicate Valid()
      reads this, freePointCloudQueue, freePointCloudQueue.buffer, pointCloudQueue, pointCloudQueue.buffer
    {
      Shaped() && Inv(Now())
    }

    constructor ()
      ensures Valid() && Now() == INITIAL
    {
      freePointCloudQueue := new Q.Queue<Message>(CAPACITY);
      pointCloudQueue := new Q.Queue<Message>(CAPACITY);
      made, driver, consumer, accepted, taken, dropped, peak := 0, [], None, [], [], [], 0;
    }

    /** A free message if there is one, else a new one. */
    method GetPointCloud() returns (m: Message)
      requires Valid()
      modifies this, freePointCloudQueue`head
      ensures Valid() && Now() == Get(old(Now())) && driver == old(driver) + [m]
    {
      hide Inv;
      GetKeeps(Now());
      ghost var next := Get(Now());
      var item := freePointCloudQueue.Pop();
      if item.Some? {
        m := item.value;
      } else {
        m := made;
        made := made + 1;
      }
      driver, peak := driver + [m], next.peak;
    }

    /** The driver hands over the message it has at place `i` of those it holds. */
    method PutPointCloud(m: Message, ghost i: nat)
      requires Valid() && i < |driver| && driver[i] == m
      modifies this, pointCloudQueue`tail, pointCloudQueue.buffer
      ensures Valid() && Now() == Put(old(Now()), i)
    {
      hide Inv;
      PutKeeps(Now(), i);
      ghost var next := Put(Now(), i);
      var ok := pointCloudQueue.Push(m);
      driver, accepted, dropped := next.driver, next.accepted, next.dropped;
    }

    method TakePointCloud() returns (item: Option<Message>)
      requires Valid() && consumer.None?
      modifies this, pointCloudQueue`head
      ensures Valid() && Now() == Take(old(Now())) && consumer == item
    {
      hide Inv;
      TakeKeeps(Now());
      ghost var next := Take(Now());
      item := pointCloudQueue.Pop();
      consumer, taken := item, next.taken;
    }

    /** After sending, the message goes back to the free queue. */
    method ReturnPointCloud(m: Message)
      requires Valid() && consumer == Some(m)
      modifies this, freePointCloudQueue`tail, freePointCloudQueue.buffer
      ensures Valid() && Now() == Return(old(Now()))
    {
      hide Inv;
      ReturnKeeps(Now());
      ghost var next := Return(Now());
      var ok := freePointCloudQueue.Push(m);
      consumer, dropped := None, next.dropped;
    }

    /** One turn of the processing thread. */
    method ProcessPointCloud() returns (sent: seq<Message>)
      requires Valid() && consumer.None?
      modifies this, freePointCloudQueue`tail, freePointCloudQueue.buffer, pointCloudQueue`head
      ensures Valid() && consumer.None? && taken == old(taken) + sent
      ensures sent == if old(pointCloudQueue.Contents()) == [] then [] else [old(pointCloudQueue.Contents())[0]]
    {
      hide Inv;
      var item := TakePointCloud();
      if item.None? { return []; }
      sent := [item.value];
      ReturnPointCloud(item.value);
    }
  }
}
