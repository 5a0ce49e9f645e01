/**
 * The iteration protocol of `Generator<T>` (lab7/generator/Generator.h).
 * A coroutine body is modelled as a script: the values it yields, in order,
 * then normal completion or an exception. A coroutine frame holds the
 * promise (the latest value and the stored exception) and counts how often
 * it has been resumed and destroyed; the iterator and the generator hold a
 * pointer to it, `null` standing for an empty handle.
 */
module Generators {
  import opened Outcomes

  const NO_VALUE_MESSAGE: string := "GetValue() is called without resume"

  datatype Ending = Completes | Throws(error: Error)

  /** What a coroutine body does when resumed again and again. */
  datatype Body<T> = Body(values: seq<T>, ending: Ending)

  /** The promise: the latest yielded value, the stored exception, and whether the body has finished. */
  datatype Promise<T> = Promise(value: Option<T>, exception: Option<Error>, done: bool)

  /**
   * The promise after `k` resumptions: resumption `i <= |values|` yields
   * `values[i - 1]`; the next one finishes the body, storing its exception
   * if it throws, and leaves the latest value in place.
   */
  function PromiseAfter<T>(body: Body<T>, k: nat): (p: Promise<T>)
    requires k <= |body.values| + 1
    ensures p.done <==> k == |body.values| + 1
  {
    var yielded := if k <= |body.values| then k else |body.values|;
    Promise(
      if yielded == 0 then None else Some(body.values[yielded - 1]),
      if k == |body.values| + 1 && body.ending.Throws? then Some(body.ending.error) else None,
      k == |body.values| + 1)
  }

  /** `GetValue`: a stored exception first, then the value, and a logic error when nothing was yielded yet. */
  function Get<T>(p: Promise<T>): (r: Result<T>)
    ensures p.exception.Some? ==> r == Err(p.exception.value)
    ensures p.exception.None? && p.value.Some? ==> r == Ok(p.value.value)
    ensures p.exception.None? && p.value.None? ==> r == Err(LogicError(NO_VALUE_MESSAGE))
  {
    if p.exception.Some? then Err(p.exception.value)
    else if p.value.Some? then Ok(p.value.value)
    else Err(LogicError(NO_VALUE_MESSAGE))
  }

  /** The frame starts suspended: before any resumption nothing ran and there is no value to read. */
  lemma NothingBeforeResume<T>(body: Body<T>)
    ensures !PromiseAfter(body, 0).done
    ensures Get(PromiseAfter(body, 0)) == Err(LogicError(NO_VALUE_MESSAGE))
  {
  }

  /** After the `k`-th yield, reading gives the `k`-th value. */
  lemma LatestValue<T>(body: Body<T>, k: nat)
    requires 1 <= k <= |body.values|
    ensures !PromiseAfter(body, k).done
    ensures Get(PromiseAfter(body, k)) == Ok(body.values[k - 1])
  {
  }

  /** Once the body has thrown, reading rethrows, whatever value was yielded last. */
  lemma ExceptionBeforeValue<T>(body: Body<T>)
    requires body.ending.Throws?
    ensures Get(PromiseAfter(body, |body.values| + 1)) == Err(body.ending.error)
  {
  }

  /** A coroutine frame with its promise. */
  class Frame<T> {
    const body: Body<T>
    var resumed: nat
    var value: Option<T>
    var exception: Option<Error>
    var done: bool
    var destroyed: nat

    ghost predicate Valid()
      reads this
    {
      resumed <= |body.values| + 1 && Promise(value, exception, done) == PromiseAfter(body, resumed)
    }

    /** A new frame is suspended at its start (`initial_suspend`). */
    constructor(body: Body<T>)
      ensures Valid() && this.body == body && resumed == 0 && destroyed == 0
    {
      this.body := body;
      resumed := 0;
      value := None;
      exception := None;
      done := false;
      destroyed := 0;
    }

    method YieldValue(v: T)
      modifies this
      ensures value == Some(v)
      ensures exception == old(exception) && done == old(done) && resumed == old(resumed)
      ensures destroyed == old(destroyed)
    {
      value := Some(v);
    }

    method UnhandledException(e: Error)
      modifies this
      ensures exception == Some(e)
      ensures value == old(value) && done == old(done) && resumed == old(resumed)
      ensures destroyed == old(destroyed)
    {
      exception := Some(e);
    }

    /** A stored exception wins over any value when the promise is read. */
    predicate HasException()
      reads this
      ensures HasException() ==> exception.Some? && Get(Promise(value, exception, done)) == Err(exception.value)
    {
      exception.Some?
    }

    /** Without an exception, the promise reads as its value, or as the no-value error when there is none. */
    predicate HasValue()
      reads this
      ensures !HasException() && HasValue() ==> value.Some? && Get(Promise(value, exception, done)) == Ok(value.value)
      ensures !HasException() && !HasValue() ==> Get(Promise(value, exception, done)) == Err(LogicError(NO_VALUE_MESSAGE))
    {
      value.Some?
    }

    function ThrowIfException(): (s: Status)
      reads this
      ensures s.Failed? <==> exception.Some?
      ensures s.Failed? ==> s.error == exception.value
    {
      if HasException() then Failed(exception.value) else Done
    }

    function GetValue(): (r: Result<T>)
      reads this
      ensures r == Get(Promise(value, exception, done))
    {
      match ThrowIfException()
      case Failed(e) => Err(e)
      case Done => if HasValue() then Ok(value.value) else Err(LogicError(NO_VALUE_MESSAGE))
    }

    /** Runs the body to its next yield, or to its end. */
    method Resume()
      requires Valid() && !done
      modifies this
      ensures Valid() && resumed == old(resumed) + 1 && destroyed == old(destroyed)
    {
      if resumed < |body.values| {
        YieldValue(body.values[resumed]);
      } else {
        if body.ending.Throws? {
          UnhandledException(body.ending.error);
        }
        done := true;
      }
      resumed := resumed + 1;
    }

    method Destroy()
      modifies this
      ensures destroyed == old(destroyed) + 1
      ensures resumed == old(resumed) && value == old(value) && exception == old(exception) && done == old(done)
    {
      destroyed := destroyed + 1;
    }
  }

  class Iterator<T> {
    var handle: Frame?<T>

    constructor Default()
      ensures handle == null
    {
      handle := null;
    }

    /** Points at `frame`; `Generator.Begin` then advances it once. */
    constructor(frame: Frame<T>)
      ensures handle == frame
    {
      handle := frame;
    }

    /** Equality with the end sentinel. */
    predicate AtEnd()
      reads this
      ensures AtEnd() <==> handle == null
    {
      handle == null
    }

    /**
     * Resumes the frame. When the body has finished, the iterator lets go of
     * the frame, becoming equal to the end sentinel, and rethrows a stored
     * exception.
     */
    method Increment() returns (status: Status)
      requires handle != null && handle.Valid() && !handle.done
      modifies this, handle
      ensures old(handle).Valid() && old(handle).resumed == old(handle.resumed) + 1
      ensures old(handle).destroyed == old(handle.destroyed)
      ensures handle == if old(handle).done then null else old(handle)
      ensures status == if old(handle).done then old(handle).ThrowIfException() else Done
    {
      handle.Resume();
      if handle.done {
        var frame := handle;
        handle := null;
        status := frame.ThrowIfException();
      } else {
        status := Done;
      }
    }

    /** The latest value, through the promise's `GetValue`. */
    function Deref(): (r: Result<T>)
      requires handle != null
      reads this, handle
      ensures handle.Valid() && 1 <= handle.resumed <= |handle.body.values| ==>
        r == Ok(handle.body.values[handle.resumed - 1])
    {
      handle.GetValue()
    }

    constructor MoveFrom(other: Iterator<T>)
      modifies other
      ensures handle == old(other.handle) && other.handle == null
    {
      handle := other.handle;
      new;
      other.handle := null;
    }

    /**
     * Move assignment as the source has it: the frame this iterator pointed
     * at is destroyed, although the generator it came from still owns it.
     */
    method MoveAssignAsWritten(other: Iterator<T>)
      modifies this, other, handle
      ensures other == this ==> handle == old(handle)
      ensures other != this ==> handle == old(other.handle) && other.handle == null
      ensures other != this && old(handle) != null ==>
        old(handle).destroyed == old(handle.destroyed) + 1 && old(handle).resumed == old(handle.resumed)
    {
      if this != other {
        if handle != null {
          handle.Destroy();
        }
        handle := other.handle;
        other.handle := null;
      }
    }

    /** Move assignment for an iterator that does not own its frame: only the pointer moves. */
    method MoveAssign(other: Iterator<T>)
      modifies this, other
      ensures other == this ==> handle == old(handle)
      ensures other != this ==> handle == old(other.handle) && other.handle == null
    {
      if this != other {
        handle := other.handle;
        other.handle := null;
      }
    }
  }

  /** The owner of a coroutine frame. */
  class Generator<T> {
    var handle: Frame?<T>

    constructor(frame: Frame<T>)
      ensures handle == frame
    {
      handle := frame;
    }

    constructor MoveFrom(other: Generator<T>)
      modifies other
      ensures handle == old(other.handle) && other.handle == null
    {
      handle := other.handle;
      new;
      other.handle := null;
    }

    /** Move assignment: takes `other`'s frame; the frame this generator owned is neither destroyed nor kept. */
    method MoveAssign(other: Generator<T>)
      modifies this, other
      ensures other == this ==> handle == old(handle)
      ensures other != this ==> handle == old(other.handle) && other.handle == null
    {
      if this != other {
        handle := other.handle;
        other.handle := null;
      }
    }

    /** The destructor destroys the owned frame, if any. */
    method Destroy()
      modifies handle
      ensures handle != null ==> handle.destroyed == old(handle.destroyed) + 1
    {
      if handle != null {
        handle.Destroy();
      }
    }

    function GetValue(): (r: Result<T>)
      requires handle != null
      reads this, handle
      ensures r == handle.GetValue()
    {
      handle.GetValue()
    }

    /** An iterator over the frame, advanced once: the body runs to its first yield. */
    method Begin() returns (it: Iterator<T>, status: Status)
      requires handle != null && handle.Valid() && !handle.done
      modifies handle
      ensures fresh(it)
      ensures handle.Valid() && handle.resumed == old(handle.resumed) + 1
      ensures handle.destroyed == old(handle.destroyed)
      ensures it.handle == if handle.done then null else handle
      ensures status == if handle.done then handle.ThrowIfException() else Done
    {
      it := new Iterator(handle);
      status := it.Increment();
    }
  }

  /**
   * A range-for over a fresh generator: begins, then reads and advances until
   * the end sentinel or an exception. It sees exactly the yielded values, in
   * order, and then the body's exception, if it throws one.
   */
  method ForEach<T>(g: Generator<T>) returns (out: seq<T>, status: Status)
    requires g.handle != null && g.handle.Valid() && g.handle.resumed == 0
    modifies g.handle
    ensures out == g.handle.body.values
    ensures status == if g.handle.body.ending.Throws? then Failed(g.handle.body.ending.error) else Done
  {
    var frame := g.handle;
    var it;
    it, status := g.Begin();
    out := [];
    while status == Done && !it.AtEnd()
      invariant frame.Valid() && frame.resumed == |out| + 1 && g.handle == frame
      invariant out == frame.body.values[..|out|]
      invariant it.handle == if frame.done then null else frame
      invariant status == if frame.done then frame.ThrowIfException() else Done
      decreases |frame.body.values| + 1 - frame.resumed
    {
      var v := it.Deref();
      out := out + [v.value];
      status := it.Increment();
    }
    assert frame.body.values[..|out|] == frame.body.values;
  }

  /** A body that yields 1 and 2 and then throws: the loop sees 1, 2, then that exception. */
  method ThrowingBodyScenario() returns (out: seq<int>, status: Status)
    ensures out == [1, 2]
    ensures status == Failed(RuntimeError("Exception from coroutine"))
  {
    var frame := new Frame(Body([1, 2], Throws(RuntimeError("Exception from coroutine"))));
    var g := new Generator(frame);
    out, status := ForEach(g);
  }

  /**
   * Re-pointing an iterator at a second generator (`it = g2.begin()`) while
   * it is inside the first, then destroying both generators: with the move
   * assignment as written, the first frame is destroyed twice.
   */
  method ReassignedIteratorAsWritten() returns (destroyedFirst: nat, destroyedSecond: nat)
    ensures destroyedFirst == 2 && destroyedSecond == 1
  {
    var first := new Frame(Body([1, 2], Completes));
    var g1 := new Generator(first);
    var second := new Frame(Body([3, 4], Completes));
    var g2 := new Generator(second);
    var it, _ := g1.Begin();
    var next, _ := g2.Begin();
    it.MoveAssignAsWritten(next);
    g2.Destroy();
    g1.Destroy();
    destroyedFirst, destroyedSecond := first.destroyed, second.destroyed;
  }

  /** The same program with a non-owning move assignment destroys each frame exactly once. */
  method ReassignedIterator() returns (destroyedFirst: nat, destroyedSecond: nat)
    ensures destroyedFirst == 1 && destroyedSecond == 1
  {
    var first := new Frame(Body([1, 2], Completes));
    var g1 := new Generator(first);
    var second := new Frame(Body([3, 4], Completes));
    var g2 := new Generator(second);
    var it, _ := g1.Begin();
    var next, _ := g2.Begin();
    it.MoveAssign(next);
    g2.Destroy();
    g1.Destroy();
    destroyedFirst, destroyedSecond := first.destroyed, second.destroyed;
  }

  // ------------------------------------------------ frame ownership in programs

  /**
   * The frames of a program: which frame each generator owns and each
   * iterator points at (None standing for an empty handle), and how often
   * each frame created so far has been destroyed.
   */
  datatype Frames = Frames(generators: map<nat, Option<nat>>, iterators: map<nat, Option<nat>>, destroyed: map<nat, nat>)

  /** The steps of a program over generators and their iterators. */
  datatype FrameOp =
    | NewGenerator(g: nat, frame: nat)
    | BeginIteration(it: nat, g: nat)
    | MoveIterator(target: nat, source: nat)
    | MoveGenerator(target: nat, source: nat)
    | ReachEnd(it: nat)
    | DestroyIterator(it: nat)
    | DestroyGenerator(g: nat)

  /** A step a program can take: the objects it names exist, or do not yet when created, and a new frame is new. */
  predicate FramePossible(w: Frames, op: FrameOp) {
    match op
    case NewGenerator(g, frame) => g !in w.generators && frame !in w.destroyed
    case BeginIteration(it, g) => it !in w.iterators && g in w.generators
    case MoveIterator(target, source) => target in w.iterators && source in w.iterators
    case MoveGenerator(target, source) => target in w.generators && source in w.generators
    case ReachEnd(it) => it in w.iterators
    case DestroyIterator(it) => it in w.iterators
    case DestroyGenerator(g) => g in w.generators
  }

  function Count(destroyed: map<nat, nat>, frame: nat): nat {
    if frame in destroyed then destroyed[frame] else 0
  }

  /** `coroutine_handle::destroy` on a handle, when it is not empty. */
  function DestroyHandle(destroyed: map<nat, nat>, handle: Option<nat>): (d: map<nat, nat>)
    ensures handle.Some? ==> d == destroyed[handle.value := Count(destroyed, handle.value) + 1]
    ensures handle.None? ==> d == destroyed
  {
    match handle
    case None => destroyed
    case Some(frame) => destroyed[frame := Count(destroyed, frame) + 1]
  }

  /**
   * The effect of a step. `asWritten` selects the iterator's move assignment
   * as written, which destroys the frame the target pointed at, instead of
   * the corrected one, which only moves the pointer. A generator's move
   * assignment drops its own frame without destroying it, as in the source.
   */
  function FrameStep(w: Frames, op: FrameOp, asWritten: bool): Frames
    requires FramePossible(w, op)
  {
    match op
    case NewGenerator(g, frame) =>
      Frames(w.generators[g := Some(frame)], w.iterators, w.destroyed[frame := 0])
    case BeginIteration(it, g) =>
      Frames(w.generators, w.iterators[it := w.generators[g]], w.destroyed)
    case MoveIterator(target, source) =>
      if target == source then w
      else
        var destroyed := if asWritten then DestroyHandle(w.destroyed, w.iterators[target]) else w.destroyed;
        Frames(w.generators, w.iterators[target := w.iterators[source]][source := None], destroyed)
    case MoveGenerator(target, source) =>
      if target == source then w
      else Frames(w.generators[target := w.generators[source]][source := None], w.iterators, w.destroyed)
    case ReachEnd(it) =>
      Frames(w.generators, w.iterators[it := None], w.destroyed)
    case DestroyIterator(it) =>
      Frames(w.generators, w.iterators - {it}, w.destroyed)
    case DestroyGenerator(g) =>
      Frames(w.generators - {g}, w.iterators, DestroyHandle(w.destroyed, w.generators[g]))
  }

  /** The state after a program, or None when it takes a step it cannot take. */
  function FrameRun(w: Frames, ops: seq<FrameOp>, asWritten: bool): Option<Frames>
    decreases |ops|
  {
    if ops == [] then Some(w)
    else if !FramePossible(w, ops[0]) then None
    else FrameRun(FrameStep(w, ops[0], asWritten), ops[1..], asWritten)
  }

  /**
   * Generators own distinct frames that have not been destroyed, and no
   * frame has been destroyed more than once.
   */
  ghost predicate FramesInv(w: Frames) {
    (forall g :: g in w.generators && w.generators[g].Some? ==>
       w.generators[g].value in w.destroyed && w.destroyed[w.generators[g].value] == 0)
    && (forall a, b :: a in w.generators && b in w.generators && a != b && w.generators[a].Some? ==>
          w.generators[a] != w.generators[b])
    && (forall frame :: frame in w.destroyed ==> w.destroyed[frame] <= 1)
  }

  /** With the corrected move assignment, every step keeps the invariant. */
  lemma FrameStepKeepsInv(w: Frames, op: FrameOp)
    requires FramesInv(w) && FramePossible(w, op)
    ensures FramesInv(FrameStep(w, op, false))
  {
    match op
    case NewGenerator(g, frame) =>
      var w' := FrameStep(w, op, false);
      forall a | a in w'.generators && w'.generators[a].Some?
        ensures w'.generators[a].value in w'.destroyed && w'.destroyed[w'.generators[a].value] == 0
      {
        if a != g {
          assert w.generators[a].value in w.destroyed;
        }
      }
    case BeginIteration(it, g) =>
    case MoveIterator(target, source) =>
    case MoveGenerator(target, source) =>
      if target != source {
        var o := w.generators[target := w.generators[source]][source := None];
        forall a, b | a in o && b in o && a != b && o[a].Some?
          ensures o[a] != o[b]
        {
          var a' := if a == target then source else a;
          var b' := if b == target then source else b;
          assert o[a] == w.generators[a'];
          if b != source {
            assert o[b] == w.generators[b'];
          }
        }
      }
    case ReachEnd(it) =>
    case DestroyIterator(it) =>
    case DestroyGenerator(g) =>
      var w' := FrameStep(w, op, false);
      forall a | a in w'.generators && w'.generators[a].Some?
        ensures w'.generators[a].value in w'.destroyed && w'.destroyed[w'.generators[a].value] == 0
      {
        assert w'.generators[a] == w.generators[a] != w.generators[g];
      }
  }

  /**
   * With the corrected move assignment, no program of generator creations,
   * iterations, moves, ends and destructions destroys any frame twice.
   */
  lemma {:induction false} EachFrameDestroyedAtMostOnce(w: Frames, ops: seq<FrameOp>)
    requires FramesInv(w)
    ensures FrameRun(w, ops, false).Some? ==> FramesInv(FrameRun(w, ops, false).value)
    ensures FrameRun(w, ops, false).Some? ==>
      forall frame :: frame in FrameRun(w, ops, false).value.destroyed ==> FrameRun(w, ops, false).value.destroyed[frame] <= 1
    decreases |ops|
  {
    if ops != [] && FramePossible(w, ops[0]) {
      FrameStepKeepsInv(w, ops[0]);
      EachFrameDestroyedAtMostOnce(FrameStep(w, ops[0], false), ops[1..]);
    }
  }

  /** The program of `ReassignedIteratorAsWritten`, as steps. */
  function ReassignProgram(): seq<FrameOp> {
    [NewGenerator(0, 0), NewGenerator(1, 1), BeginIteration(0, 0), BeginIteration(1, 1),
     MoveIterator(0, 1), DestroyGenerator(1), DestroyGenerator(0)]
  }

  /**
   * With the move assignment as written, that program destroys the first
   * frame twice; with the corrected one, each frame once.
   */
  lemma ReassignProgramDestroys()
    ensures FrameRun(Frames(map[], map[], map[]), ReassignProgram(), true).Some?
    ensures FrameRun(Frames(map[], map[], map[]), ReassignProgram(), true).value.destroyed == map[0 := 2, 1 := 1]
    ensures FrameRun(Frames(map[], map[], map[]), ReassignProgram(), false).Some?
    ensures FrameRun(Frames(map[], map[], map[]), ReassignProgram(), false).value.destroyed == map[0 := 1, 1 := 1]
  {
  }
}
