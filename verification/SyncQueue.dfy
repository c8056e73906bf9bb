/** The queue between two threads of sync_queue.hpp: a ring of `Capacity` slots with one index
    written only by the producer and one only by the consumer. A push and a pop are each several
    loads and stores; they are taken in sequentially consistent order, in any interleaving. */
module SyncQueue {
  import opened Basics

  /** The next index around the ring. */
  function Wrap(i: nat, capacity: nat): nat {
    if i < capacity then i else i - capacity
  }

  lemma WrapIsModulo(i: nat, capacity: nat)
    requires i < 2 * capacity
    ensures Wrap(i, capacity) == i % capacity
  {
    if i >= capacity {
      assert i == 1 * capacity + (i - capacity);
      assert (1 * capacity + (i - capacity)) % capacity == i - capacity;
    }
  }

  datatype Ring<T> = Ring(buffer: seq<T>, head: nat, tail: nat)
  {
    predicate Valid() { head < |buffer| && tail < |buffer| }

    function Count(): nat
      requires Valid()
    {
      if tail >= head then tail - head else |buffer| - head + tail
    }

    /** Oldest first. */
    function Contents(): (s: seq<T>)
      requires Valid()
      ensures |s| == Count()
    {
      seq(Count(), k requires 0 <= k < Count() => buffer[Wrap(head + k, |buffer|)])
    }
  }

  /** Where the producer stands in a push. */
  datatype Producer<T> =
    | Resting
    | TailLoaded(value: T, tail: nat)
    | RoomSeen(value: T, tail: nat)
    | Written(value: T, tail: nat)

  /** Where the consumer stands in a pop. */
  datatype Consumer<T> =
    | Waiting
    | HeadLoaded(head: nat)
    | ItemSeen(head: nat)
    | Read(head: nat, value: T)

  /** The ring and both threads, with what was pushed and popped so far as history. */
  datatype State<T> = State(
    ring: Ring<T>, producer: Producer<T>, consumer: Consumer<T>, pushed: seq<T>, popped: seq<T>)

  datatype Step<T> = Begin(value: T) | CheckRoom | Write | Publish | LoadHead | CheckItem | ReadSlot | Release

  predicate Possible<T>(st: State<T>, step: Step<T>) {
    match step
    case Begin(_) => st.producer.Resting?
    case CheckRoom => st.producer.TailLoaded?
    case Write => st.producer.RoomSeen? && st.producer.tail < |st.ring.buffer|
    case Publish => st.producer.Written?
    case LoadHead => st.consumer.Waiting?
    case CheckItem => st.consumer.HeadLoaded?
    case ReadSlot => st.consumer.ItemSeen? && st.consumer.head < |st.ring.buffer|
    case Release => st.consumer.Read?
  }

  function Next<T>(st: State<T>, step: Step<T>): State<T>
    requires Possible(st, step)
  {
    var n := |st.ring.buffer|;
    match step
    case Begin(value) => st.(producer := TailLoaded(value, st.ring.tail))
    case CheckRoom => (
      var p := st.producer;
      if Wrap(p.tail + 1, n) == st.ring.head then st.(producer := Resting)
      else st.(producer := RoomSeen(p.value, p.tail)))
    case Write => (
      var p := st.producer;
      st.(ring := st.ring.(buffer := st.ring.buffer[p.tail := p.value]), producer := Written(p.value, p.tail)))
    case Publish => (
      var p := st.producer;
      st.(ring := st.ring.(tail := Wrap(p.tail + 1, n)), producer := Resting, pushed := st.pushed + [p.value]))
    case LoadHead => st.(consumer := HeadLoaded(st.ring.head))
    case CheckItem => (
      if st.consumer.head == st.ring.tail then st.(consumer := Waiting)
      else st.(consumer := ItemSeen(st.consumer.head)))
    case ReadSlot => st.(consumer := Read(st.consumer.head, st.ring.buffer[st.consumer.head]))
    case Release => (
      var c := st.consumer;
      st.(ring := st.ring.(head := Wrap(c.head + 1, n)), consumer := Waiting, popped := st.popped + [c.value]))
  }

  function Start<T>(buffer: seq<T>): State<T> {
    State(Ring(buffer, 0, 0), Resting, Waiting, [], [])
  }

  /** Any interleaving; a step that cannot be taken changes nothing. */
  function Run<T>(buffer: seq<T>, steps: seq<Step<T>>): State<T>
    decreases |steps|
  {
    if steps == [] then Start(buffer)
    else
      var before, step := Run(buffer, steps[..|steps| - 1]), steps[|steps| - 1];
      if Possible(before, step) then Next(before, step) else before
  }

  ghost predicate ProducerOk<T>(st: State<T>)
    requires st.ring.Valid()
  {
    match st.producer
    case Resting => true
    case TailLoaded(_, tail) => tail == st.ring.tail
    case RoomSeen(_, tail) => tail == st.ring.tail && st.ring.Count() < |st.ring.buffer| - 1
    case Written(value, tail) => (
      && tail == st.ring.tail && st.ring.Count() < |st.ring.buffer| - 1 && st.ring.buffer[tail] == value)
  }

  ghost predicate ConsumerOk<T>(st: State<T>)
    requires st.ring.Valid()
  {
    match st.consumer
    case Waiting => true
    case HeadLoaded(head) => head == st.ring.head
    case ItemSeen(head) => head == st.ring.head && st.ring.Count() > 0
    case Read(head, value) => head == st.ring.head && st.ring.Count() > 0 && value == st.ring.Contents()[0]
  }

  /** What was popped, then what is in the ring, is what was pushed. */
  ghost predicate Inv<T>(st: State<T>) {
    && st.ring.Valid() && ProducerOk(st) && ConsumerOk(st)
    && st.pushed == st.popped + st.ring.Contents()
  }

  lemma CountBelowCapacity<T>(r: Ring<T>)
    requires r.Valid()
    ensures r.Count() < |r.buffer|
    ensures Wrap(r.tail + 1, |r.buffer|) == r.head <==> r.Count() == |r.buffer| - 1
    ensures r.head == r.tail <==> r.Count() == 0
  {}

  /** Writing the slot past the newest leaves the contents alone. */
  lemma WriteKeepsContents<T>(r: Ring<T>, value: T)
    requires r.Valid() && r.Count() < |r.buffer| - 1
    ensures r.(buffer := r.buffer[r.tail := value]).Contents() == r.Contents()
  {
    var next := r.(buffer := r.buffer[r.tail := value]);
    forall k | 0 <= k < r.Count() ensures next.Contents()[k] == r.Contents()[k] {
      assert Wrap(r.head + k, |r.buffer|) != r.tail;
    }
  }

  lemma PublishAppends<T>(r: Ring<T>)
    requires r.Valid() && r.Count() < |r.buffer| - 1
    ensures var next := r.(tail := Wrap(r.tail + 1, |r.buffer|));
      next.Valid() && next.Contents() == r.Contents() + [r.buffer[r.tail]]
  {
    var next := r.(tail := Wrap(r.tail + 1, |r.buffer|));
    assert next.Count() == r.Count() + 1 && Wrap(r.head + r.Count(), |r.buffer|) == r.tail;
    assert next.Contents() == r.Contents() + [r.buffer[r.tail]] by {
      forall k | 0 <= k < r.Count() ensures next.Contents()[k] == r.Contents()[k] {}
    }
  }

  lemma FirstIsAtHead<T>(r: Ring<T>)
    requires r.Valid() && r.Count() > 0
    ensures r.Contents()[0] == r.buffer[r.head]
  {
    assert Wrap(r.head + 0, |r.buffer|) == r.head;
  }

  lemma ReleaseDropsFirst<T>(r: Ring<T>)
    requires r.Valid() && r.Count() > 0
    ensures var next := r.(head := Wrap(r.head + 1, |r.buffer|));
      && next.Valid() && next.Count() == r.Count() - 1
      && r.Contents()[0] == r.buffer[r.head] && r.Contents() == [r.Contents()[0]] + next.Contents()
  {
    FirstIsAtHead(r);
    var next := r.(head := Wrap(r.head + 1, |r.buffer|));
    assert next.Count() == r.Count() - 1;
    forall k | 0 <= k < next.Count() ensures next.Contents()[k] == r.Contents()[k + 1] {
      assert Wrap(next.head + k, |r.buffer|) == Wrap(r.head + (k + 1), |r.buffer|);
    }
  }

  lemma ProducerKeeps<T>(st: State<T>, step: Step<T>)
    requires Inv(st) && Possible(st, step) && (step.Begin? || step.CheckRoom? || step.Write? || step.Publish?)
    ensures Inv(Next(st, step))
  {
    CountBelowCapacity(st.ring);
    if step.Write? { WriteKeepsContents(st.ring, st.producer.value); }
    if step.Publish? { PublishAppends(st.ring); }
    hide Wrap;
  }

  lemma ConsumerKeeps<T>(st: State<T>, step: Step<T>)
    requires Inv(st) && Possible(st, step) && (step.LoadHead? || step.CheckItem? || step.ReadSlot? || step.Release?)
    ensures Inv(Next(st, step))
  {
    CountBelowCapacity(st.ring);
    if step.ReadSlot? { FirstIsAtHead(st.ring); }
    if step.Release? { ReleaseDropsFirst(st.ring); }
    hide Wrap;
  }

  lemma NextKeeps<T>(st: State<T>, step: Step<T>)
    requires Inv(st) && Possible(st, step)
    ensures Inv(Next(st, step)) && |Next(st, step).ring.buffer| == |st.ring.buffer|
  {
    if step.Begin? || step.CheckRoom? || step.Write? || step.Publish? {
      ProducerKeeps(st, step);
    } else {
      ConsumerKeeps(st, step);
    }
    hide Inv;
  }

  lemma {:induction false} RunKeeps<T>(buffer: seq<T>, steps: seq<Step<T>>)
    requires buffer != []
    ensures Inv(Run(buffer, steps)) && |Run(buffer, steps).ring.buffer| == |buffer|
    decreases |steps|
  {
    if steps != [] {
      RunKeeps(buffer, steps[..|steps| - 1]);
      var before, step := Run(buffer, steps[..|steps| - 1]), steps[|steps| - 1];
      if Possible(before, step) { NextKeeps(before, step); }
      hide Inv;
    }
  }

  /** In every interleaving of one producer and one consumer, what comes out is what went in, in
      order, without loss or repetition: the popped values and then the ring's contents are
      exactly the values whose push was not refused. */
  lemma FirstInFirstOut<T>(buffer: seq<T>, steps: seq<Step<T>>)
    requires buffer != []
    ensures var st := Run(buffer, steps);
      st.ring.Valid() && st.pushed == st.popped + st.ring.Contents() && |st.ring.Contents()| < |buffer|
  {
    RunKeeps(buffer, steps);
    CountBelowCapacity(Run(buffer, steps).ring);
  }

  /** A push is refused exactly when all slots but one are taken at the time it looks. */
  lemma RefusedIffFull<T>(buffer: seq<T>, steps: seq<Step<T>>)
    requires buffer != [] && Run(buffer, steps).producer.TailLoaded?
    ensures var st := Run(buffer, steps);
      st.ring.Valid() && (Next(st, CheckRoom).producer.Resting? <==> |st.ring.Contents()| == |buffer| - 1)
  {
    RunKeeps(buffer, steps);
    CountBelowCapacity(Run(buffer, steps).ring);
  }

  /** A pop finds nothing exactly when the ring is empty at the time it looks. */
  lemma NothingIffEmpty<T>(buffer: seq<T>, steps: seq<Step<T>>)
    requires buffer != [] && Run(buffer, steps).consumer.HeadLoaded?
    ensures var st := Run(buffer, steps);
      st.ring.Valid() && (Next(st, CheckItem).consumer.Waiting? <==> st.ring.Contents() == [])
  {
    RunKeeps(buffer, steps);
    CountBelowCapacity(Run(buffer, steps).ring);
  }

  // ---------------------------------------------------------------------------
  // Each call takes effect in one piece

  datatype Call<T> = Pushed(value: T) | Refused(value: T) | Popped(value: T) | NothingFound

  /** The call that takes effect at this step, its last one; no call does at the others. */
  function Effect<T>(st: State<T>, step: Step<T>): Option<Call<T>>
    requires Possible(st, step)
  {
    match step
    case CheckRoom => if Next(st, step).producer.Resting? then Some(Refused(st.producer.value)) else None
    case Publish => Some(Pushed(st.producer.value))
    case CheckItem => if Next(st, step).consumer.Waiting? then Some(NothingFound) else None
    case Release => Some(Popped(st.consumer.value))
    case _ => None
  }

  /** What a queue with room for `n` that holds `q` then holds, if it can answer the call so. */
  ghost function Answer<T>(q: seq<T>, n: nat, call: Call<T>): Option<seq<T>> {
    match call
    case Pushed(value) => if |q| < n then Some(q + [value]) else None
    case Refused(_) => if |q| == n then Some(q) else None
    case Popped(value) => if q != [] && value == q[0] then Some(q[1..]) else None
    case NothingFound => if q == [] then Some(q) else None
  }

  lemma StepTakesEffect<T>(st: State<T>, step: Step<T>)
    requires Inv(st) && Possible(st, step)
    ensures Inv(Next(st, step)) && |Next(st, step).ring.buffer| == |st.ring.buffer|
    ensures match Effect(st, step)
      case None => Next(st, step).ring.Contents() == st.ring.Contents()
      case Some(call) =>
        Answer(st.ring.Contents(), |st.ring.buffer| - 1, call) == Some(Next(st, step).ring.Contents())
  {
    NextKeeps(st, step);
    CountBelowCapacity(st.ring);
    if step.Write? { WriteKeepsContents(st.ring, st.producer.value); }
    if step.Publish? { PublishAppends(st.ring); }
    if step.Release? { ReleaseDropsFirst(st.ring); }
    hide Wrap;
  }

  /** The calls of a run in the order in which they took effect. */
  function Calls<T>(buffer: seq<T>, steps: seq<Step<T>>): seq<Call<T>>
    decreases |steps|
  {
    if steps == [] then []
    else
      var front, step := steps[..|steps| - 1], steps[|steps| - 1];
      var before := Run(buffer, front);
      var effect := if Possible(before, step) then Effect(before, step) else None;
      if effect.Some? then Calls(buffer, front) + [effect.value] else Calls(buffer, front)
  }

  /** What an empty queue with room for `n` holds after the calls, made one after the other, if
      it can answer them so. */
  ghost function Replay<T>(calls: seq<Call<T>>, n: nat): Option<seq<T>>
    decreases |calls|
  {
    if calls == [] then Some([])
    else
      var before := Replay(calls[..|calls| - 1], n);
      if before.Some? then Answer(before.value, n, calls[|calls| - 1]) else None
  }

  lemma ReplayAppend<T>(calls: seq<Call<T>>, call: Call<T>, n: nat)
    requires Replay(calls, n).Some?
    ensures Replay(calls + [call], n) == Answer(Replay(calls, n).value, n, call)
  {
    assert (calls + [call])[..|calls|] == calls;
  }

  /** Every interleaving of loads and stores answers its calls, in the order of their last steps,
      as a queue would on which each call is one piece, and leaves the same contents. */
  lemma {:induction false} CallsAreAtomic<T>(buffer: seq<T>, steps: seq<Step<T>>)
    requires buffer != []
    ensures Run(buffer, steps).ring.Valid()
    ensures Replay(Calls(buffer, steps), |buffer| - 1) == Some(Run(buffer, steps).ring.Contents())
    decreases |steps|
  {
    hide Inv;
    hide Effect;
    hide Next;
    hide Answer;
    hide Possible;
    RunKeeps(buffer, steps);
    InvValid(Run(buffer, steps));
    if steps != [] {
      var front, step := steps[..|steps| - 1], steps[|steps| - 1];
      RunKeeps(buffer, front);
      CallsAreAtomic(buffer, front);
      var before := Run(buffer, front);
      if Possible(before, step) {
        StepTakesEffect(before, step);
        if Effect(before, step).Some? {
          ReplayAppend(Calls(buffer, front), Effect(before, step).value, |buffer| - 1);
        }
      }
    }
  }

  lemma InvValid<T>(st: State<T>)
    requires Inv(st)
    ensures st.ring.Valid()
  {}

  // ---------------------------------------------------------------------------
  // The queue as an object, each call in one piece

  class Queue<T(0)> {
    const buffer: array<T>
    var head: nat
    var tail: nat

    function Capacity(): nat { buffer.Length }

    ghost function Now(): Ring<T>
      reads this, buffer
    {
      Ring(buffer[..], head, tail)
    }

    ghost predicate Valid()
      reads this, buffer
    {
      Now().Valid()
    }

    ghost function Contents(): seq<T>
      requires Valid()
      reads this, buffer
    {
      Now().Contents()
    }

    constructor (capacity: nat)
      requires capacity > 0
      ensures Valid() && Contents() == [] && Capacity() == capacity && fresh(buffer)
    {
      buffer := new T[capacity];
      head, tail := 0, 0;
    }

    method Push(value: T) returns (ok: bool)
      requires Valid()
      modifies this`tail, buffer
      ensures Valid() && ok == (|old(Contents())| < Capacity() - 1)
      ensures Contents() == if ok then old(Contents()) + [value] else old(Contents())
    {
      var nextTail := (tail + 1) % buffer.Length;
      WrapIsModulo(tail + 1, buffer.Length);
      CountBelowCapacity(Now());
      if nextTail == head { return false; }
      ghost var r := Now();
      WriteKeepsContents(r, value);
      PublishAppends(r.(buffer := r.buffer[r.tail := value]));
      buffer[tail] := value;
      assert buffer[..] == r.buffer[r.tail := value];
      tail := nextTail;
      return true;
    }

    method Pop() returns (item: Option<T>)
      requires Valid()
      modifies this`head
      ensures Valid()
      ensures old(Contents()) == [] ==> item == None && Contents() == []
      ensures old(Contents()) != [] ==> item == Some(old(Contents())[0]) && Contents() == old(Contents())[1..]
    {
      CountBelowCapacity(Now());
      if head == tail { return None; }
      ReleaseDropsFirst(Now());
      item := Some(buffer[head]);
      WrapIsModulo(head + 1, buffer.Length);
      head := (head + 1) % buffer.Length;
    }
  }
}
