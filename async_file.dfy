/**
 * Asynchronous files over an io_uring dispatcher (lab7/asyncFile/AsyncFile.h):
 * an owning descriptor with move semantics, and the read and write awaiters.
 * The dispatcher is represented only by the submissions it is handed; the
 * ring, the completion loop and the kernel's results are not part of this
 * model (a completion is whatever value `OperationState.res` holds).
 */
module AsyncFiles {
  import opened Outcomes
  import opened Descriptors

  /** A suspended coroutine, identified by a number. */
  datatype Handle = Handle(id: nat)

  /** What one submission asks of the kernel. Reads and writes are always at file offset 0. */
  datatype Request =
    | OpenAt(path: string, flags: bv32, mode: bv32)
    | ReadAt(fd: int, buf: nat, count: nat, offset: nat)
    | WriteAt(fd: int, buf: nat, count: nat, offset: nat)

  /** The bookkeeping an awaiter shares with the dispatcher. */
  class OperationState {
    var handle: Option<Handle>
    var res: int
    var completed: bool

    constructor()
      ensures handle == None && res == 0 && !completed
    {
      handle := None;
      res := 0;
      completed := false;
    }
  }

  datatype Submission = Submission(state: OperationState, request: Request)

  /** The submission side of the dispatcher: each queued operation is recorded in order. */
  class Dispatcher {
    var queued: seq<Submission>
    var activeOperations: nat

    constructor()
      ensures queued == [] && activeOperations == 0
    {
      queued := [];
      activeOperations := 0;
    }

    method QueueOpen(state: OperationState, path: string, flags: bv32, mode: bv32)
      modifies this
      ensures queued == old(queued) + [Submission(state, OpenAt(path, flags, mode))]
      ensures activeOperations == old(activeOperations) + 1
    {
      activeOperations := activeOperations + 1;
      queued := queued + [Submission(state, OpenAt(path, flags, mode))];
    }

    method QueueRead(state: OperationState, fd: int, buf: nat, count: nat)
      modifies this
      ensures queued == old(queued) + [Submission(state, ReadAt(fd, buf, count, 0))]
      ensures activeOperations == old(activeOperations) + 1
    {
      activeOperations := activeOperations + 1;
      queued := queued + [Submission(state, ReadAt(fd, buf, count, 0))];
    }

    method QueueWrite(state: OperationState, fd: int, buf: nat, count: nat)
      modifies this
      ensures queued == old(queued) + [Submission(state, WriteAt(fd, buf, count, 0))]
      ensures activeOperations == old(activeOperations) + 1
    {
      activeOperations := activeOperations + 1;
      queued := queued + [Submission(state, WriteAt(fd, buf, count, 0))];
    }
  }

  /**
   * How an awaiter turns a completion code into its result: a negative code
   * is a failure named by `failure`, anything else is returned unchanged
   * (the conversion to `unsigned` keeps a non-negative `int`).
   */
  function Completion(res: int, failure: string): (r: Result<nat>)
    ensures r.Ok? <==> res >= 0
    ensures r.Ok? ==> r.value == res
    ensures r.Err? ==> r.error == RuntimeError(failure)
  {
    if res < 0 then Err(RuntimeError(failure)) else Ok(res)
  }

  class ReadAwaiter {
    const dispatcher: Dispatcher
    const fd: int
    const buf: nat
    const count: nat
    const state: OperationState

    constructor(dispatcher: Dispatcher, fd: int, buf: nat, count: nat)
      ensures this.dispatcher == dispatcher && this.fd == fd && this.buf == buf && this.count == count
      ensures fresh(state) && state.handle == None && state.res == 0
    {
      this.dispatcher := dispatcher;
      this.fd := fd;
      this.buf := buf;
      this.count := count;
      state := new OperationState();
    }

    /** The operation always has to be submitted first. */
    function AwaitReady(): (ready: bool)
      ensures !ready
    {
      false
    }

    /** Records who to resume and queues exactly one read of the awaiter's descriptor, buffer and count. */
    method AwaitSuspend(handle: Handle)
      modifies state, dispatcher
      ensures state.handle == Some(handle)
      ensures dispatcher.queued == old(dispatcher.queued) + [Submission(state, ReadAt(fd, buf, count, 0))]
      ensures dispatcher.activeOperations == old(dispatcher.activeOperations) + 1
    {
      state.handle := Some(handle);
      dispatcher.QueueRead(state, fd, buf, count);
    }

    /** The number of bytes read, or "Read failed" for a negative completion code. */
    function AwaitResume(): (r: Result<nat>)
      reads state
      ensures r == Completion(state.res, "Read failed")
    {
      if state.res < 0 then Err(RuntimeError("Read failed")) else Ok(state.res)
    }
  }

  class WriteAwaiter {
    const dispatcher: Dispatcher
    const fd: int
    const buf: nat
    const count: nat
    const state: OperationState

    constructor(dispatcher: Dispatcher, fd: int, buf: nat, count: nat)
      ensures this.dispatcher == dispatcher && this.fd == fd && this.buf == buf && this.count == count
      ensures fresh(state) && state.handle == None && state.res == 0
    {
      this.dispatcher := dispatcher;
      this.fd := fd;
      this.buf := buf;
      this.count := count;
      state := new OperationState();
    }

    function AwaitReady(): (ready: bool)
      ensures !ready
    {
      false
    }

    /** Records who to resume and queues exactly one write of the awaiter's descriptor, buffer and count. */
    method AwaitSuspend(handle: Handle)
      modifies state, dispatcher
      ensures state.handle == Some(handle)
      ensures dispatcher.queued == old(dispatcher.queued) + [Submission(state, WriteAt(fd, buf, count, 0))]
      ensures dispatcher.activeOperations == old(dispatcher.activeOperations) + 1
    {
      state.handle := Some(handle);
      dispatcher.QueueWrite(state, fd, buf, count);
    }

    /** The number of bytes written, or "Write failed" for a negative completion code. */
    function AwaitResume(): (r: Result<nat>)
      reads state
      ensures r == Completion(state.res, "Write failed")
    {
      if state.res < 0 then Err(RuntimeError("Write failed")) else Ok(state.res)
    }
  }

  /** A file that owns descriptor `fd`, or nothing when `fd` is `-1`. */
  class AsyncFile {
    var fd: int

    constructor(fd: int)
      ensures this.fd == fd
    {
      this.fd := fd;
    }

    /** Move construction: takes `other`'s descriptor and leaves `other` owning nothing. */
    constructor MoveFrom(other: AsyncFile)
      modifies other
      ensures fd == old(other.fd) && other.fd == INVALID_DESC
    {
      fd := other.fd;
      new;
      other.fd := INVALID_DESC;
    }

    /** The destructor closes the descriptor iff there is one. */
    method Destroy(kernel: Kernel)
      modifies kernel
      ensures kernel.closed == old(kernel.closed) + (if fd != INVALID_DESC then [fd] else [])
    {
      if fd != INVALID_DESC {
        kernel.Close(fd);
      }
    }

    /**
     * Move assignment: closes the descriptor this file owned, if any, takes
     * `other`'s and leaves `other` owning nothing. Self-assignment does nothing.
     */
    method MoveAssign(other: AsyncFile, kernel: Kernel)
      modifies this, other, kernel
      ensures other == this ==> fd == old(fd) && kernel.closed == old(kernel.closed)
      ensures other != this ==> fd == old(other.fd) && other.fd == INVALID_DESC
      ensures other != this ==>
        kernel.closed == old(kernel.closed) + (if old(fd) != INVALID_DESC then [old(fd)] else [])
    {
      if this != other {
        if fd != INVALID_DESC {
          kernel.Close(fd);
        }
        fd := other.fd;
        other.fd := INVALID_DESC;
      }
    }

    /** An awaiter that reads `count` bytes of this file into `buf`. */
    method ReadAsync(dispatcher: Dispatcher, buf: nat, count: nat) returns (awaiter: ReadAwaiter)
      ensures fresh(awaiter) && fresh(awaiter.state)
      ensures awaiter.dispatcher == dispatcher && awaiter.fd == fd
      ensures awaiter.buf == buf && awaiter.count == count
    {
      awaiter := new ReadAwaiter(dispatcher, fd, buf, count);
    }

    /** An awaiter that writes `count` bytes from `buf` to this file. */
    method AsyncWrite(dispatcher: Dispatcher, buf: nat, count: nat) returns (awaiter: WriteAwaiter)
      ensures fresh(awaiter) && fresh(awaiter.state)
      ensures awaiter.dispatcher == dispatcher && awaiter.fd == fd
      ensures awaiter.buf == buf && awaiter.count == count
    {
      awaiter := new WriteAwaiter(dispatcher, fd, buf, count);
    }
  }

  // ------------------------------------------------------------- ownership

  /**
   * The ownership picture of a program's AsyncFile objects: `owner` maps each
   * live object to the descriptor it holds (`-1` for none), `open` is the set
   * of descriptors the kernel has open.
   */
  datatype World = World(owner: map<nat, int>, open: set<int>)

  /** The objects that hold a descriptor hold distinct, open ones. */
  ghost predicate Inv(w: World) {
    (forall id :: id in w.owner && w.owner[id] != INVALID_DESC ==> w.owner[id] in w.open)
    && (forall a, b :: a in w.owner && b in w.owner && a != b && w.owner[a] != INVALID_DESC ==>
          w.owner[a] != w.owner[b])
  }

  /** The steps of a program: construction from a fresh descriptor, the two moves, and destruction. */
  datatype Op =
    | Construct(id: nat, fd: int)
    | MoveConstruct(id: nat, from: nat)
    | MoveAssign(target: nat, source: nat)
    | Destroy(id: nat)

  /**
   * A step a program can take: the objects it names exist (or, when created,
   * do not yet), and a constructed file gets `-1` or a descriptor the kernel
   * has just opened for it.
   */
  predicate Possible(w: World, op: Op) {
    match op
    case Construct(id, fd) => id !in w.owner && (fd == INVALID_DESC || (fd >= 0 && fd !in w.open))
    case MoveConstruct(id, from) => id !in w.owner && from in w.owner
    case MoveAssign(target, source) => target in w.owner && source in w.owner
    case Destroy(id) => id in w.owner
  }

  /** The effect of a step: the new world, or None when it would close a descriptor that is not open. */
  function Step(w: World, op: Op): Option<World>
    requires Possible(w, op)
  {
    match op
    case Construct(id, fd) =>
      Some(World(w.owner[id := fd], if fd == INVALID_DESC then w.open else w.open + {fd}))
    case MoveConstruct(id, from) =>
      Some(World(w.owner[id := w.owner[from]][from := INVALID_DESC], w.open))
    case MoveAssign(target, source) =>
      if target == source then Some(w)
      else
        var fd := w.owner[target];
        if fd != INVALID_DESC && fd !in w.open then None
        else
          var open := if fd == INVALID_DESC then w.open else w.open - {fd};
          Some(World(w.owner[target := w.owner[source]][source := INVALID_DESC], open))
    case Destroy(id) =>
      var fd := w.owner[id];
      if fd != INVALID_DESC && fd !in w.open then None
      else Some(World(w.owner - {id}, if fd == INVALID_DESC then w.open else w.open - {fd}))
  }

  /** Every step keeps the invariant, and so never closes a descriptor twice. */
  lemma StepKeepsInv(w: World, op: Op)
    requires Inv(w) && Possible(w, op)
    ensures Step(w, op).Some? && Inv(Step(w, op).value)
  {
    match op
    case Construct(id, fd) =>
    case MoveConstruct(id, from) =>
      var o := w.owner[id := w.owner[from]][from := INVALID_DESC];
      forall a, b | a in o && b in o && a != b && o[a] != INVALID_DESC
        ensures o[a] != o[b]
      {
        var a' := if a == id then from else a;
        var b' := if b == id then from else b;
        assert o[a] == w.owner[a'];
        if b != from {
          assert o[b] == w.owner[b'];
        }
      }
    case MoveAssign(target, source) =>
      if target != source {
        var fd := w.owner[target];
        var open := if fd == INVALID_DESC then w.open else w.open - {fd};
        var o := w.owner[target := w.owner[source]][source := INVALID_DESC];
        forall id | id in o && o[id] != INVALID_DESC
          ensures o[id] in open
        {
          var id' := if id == target then source else id;
          assert o[id] == w.owner[id'];
        }
        forall a, b | a in o && b in o && a != b && o[a] != INVALID_DESC
          ensures o[a] != o[b]
        {
          var a' := if a == target then source else a;
          var b' := if b == target then source else b;
          assert o[a] == w.owner[a'];
          if b != source {
            assert o[b] == w.owner[b'];
          }
        }
      }
    case Destroy(id) =>
  }

  /** How a program run ends: normally, at a step it cannot take, or at a second close of a descriptor. */
  datatype Outcome = Finished(w: World) | Impossible(at: nat) | ClosedTwice(at: nat)

  function Run(w: World, ops: seq<Op>): Outcome
    decreases |ops|
  {
    if ops == [] then Finished(w)
    else if !Possible(w, ops[0]) then Impossible(0)
    else match Step(w, ops[0])
      case None => ClosedTwice(0)
      case Some(w') =>
        match Run(w', ops[1..])
        case Finished(w'') => Finished(w'')
        case Impossible(i) => Impossible(i + 1)
        case ClosedTwice(i) => ClosedTwice(i + 1)
  }

  /**
   * Through any sequence of constructions, moves and destructions, starting
   * from a world where ownership is exclusive, no descriptor is closed twice
   * and ownership stays exclusive.
   */
  lemma {:induction false} NeverClosedTwice(w: World, ops: seq<Op>)
    requires Inv(w)
    ensures !Run(w, ops).ClosedTwice?
    ensures Run(w, ops).Finished? ==> Inv(Run(w, ops).w)
    decreases |ops|
  {
    if ops != [] && Possible(w, ops[0]) {
      StepKeepsInv(w, ops[0]);
      NeverClosedTwice(Step(w, ops[0]).value, ops[1..]);
    }
  }

  /**
   * Two objects holding the same descriptor (as two files built from one
   * `int` would) break the invariant, and destroying both closes it twice.
   */
  lemma SharedDescriptorClosedTwice(fd: nat)
    ensures !Inv(World(map[0 := fd, 1 := fd], {fd}))
    ensures Run(World(map[0 := fd, 1 := fd], {fd}), [Destroy(0), Destroy(1)]) == ClosedTwice(1)
  {
    var w := World(map[0 := fd, 1 := fd], {fd});
    assert 0 in w.owner && 1 in w.owner && w.owner[0] == w.owner[1] == fd;
    assert w.owner - {0} == map[1 := fd];
    assert w.open - {fd} == {};
    assert Step(w, Destroy(0)) == Some(World(map[1 := fd], {}));
    assert [Destroy(0), Destroy(1)][1..] == [Destroy(1)];
  }
}
