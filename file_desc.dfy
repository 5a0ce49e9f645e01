/**
 * An owning wrapper of a POSIX file descriptor (lib/osWrappers/FileDesc.h).
 * `-1` means "no descriptor". The kernel is represented by the log of the
 * descriptors passed to close(2); the results of close(2) and read(2) and
 * `errno` are parameters, since they come from the operating system.
 */
module Descriptors {
  import opened Outcomes

  const INVALID_DESC: int := -1

  /** The calls made to close(2), in order. */
  class Kernel {
    var closed: seq<int>

    constructor()
      ensures closed == []
    {
      closed := [];
    }

    /** Records a call of close(2) on `fd`; what the call returns is up to the caller's parameters. */
    method Close(fd: int)
      modifies this
      ensures closed == old(closed) + [fd]
    {
      closed := closed + [fd];
    }
  }

  class FileDesc {
    var desc: int

    /** A descriptor is `-1` or non-negative. */
    ghost predicate Valid()
      reads this
    {
      desc == INVALID_DESC || desc >= 0
    }

    /** The default: no descriptor. */
    constructor Empty()
      ensures Valid() && desc == INVALID_DESC && !IsOpen()
    {
      desc := INVALID_DESC;
    }

    /** Takes ownership of `desc`; any other negative value is refused (see `NewFileDesc`). */
    constructor(desc: int)
      requires desc == INVALID_DESC || desc >= 0
      ensures Valid() && this.desc == desc
    {
      this.desc := desc;
    }

    /** Move construction: takes `other`'s descriptor and leaves `other` empty. */
    constructor MoveFrom(other: FileDesc)
      requires other.Valid()
      modifies other
      ensures Valid() && desc == old(other.desc) && other.desc == INVALID_DESC
    {
      desc := other.desc;
      new;
      other.desc := INVALID_DESC;
    }

    /** A valid wrapper is open exactly when it holds a non-negative descriptor. */
    predicate IsOpen()
      reads this
      ensures Valid() ==> (IsOpen() <==> desc >= 0)
    {
      desc != INVALID_DESC
    }

    /** The descriptor held: `-1` exactly when the wrapper is not open. */
    function Get(): (d: int)
      reads this
      ensures d == desc
      ensures Valid() ==> d >= INVALID_DESC && (d == INVALID_DESC <==> !IsOpen())
    {
      desc
    }

    method Swap(other: FileDesc)
      modifies this, other
      ensures desc == old(other.desc) && other.desc == old(desc)
    {
      desc, other.desc := other.desc, desc;
    }

    /**
     * Closes an open descriptor once and forgets it; does nothing when there
     * is none. When close(2) fails (`result != 0`) the error is reported and
     * the descriptor is kept.
     */
    method Close(kernel: Kernel, result: int, errno: int) returns (status: Status)
      modifies this, kernel
      ensures old(desc) == INVALID_DESC ==> status == Done && desc == old(desc) && kernel.closed == old(kernel.closed)
      ensures old(desc) != INVALID_DESC ==> kernel.closed == old(kernel.closed) + [old(desc)]
      ensures old(desc) != INVALID_DESC && result == 0 ==> status == Done && desc == INVALID_DESC
      ensures old(desc) != INVALID_DESC && result != 0 ==> status == Failed(SystemError(errno)) && desc == old(desc)
    {
      if IsOpen() {
        kernel.Close(desc);
        if result != 0 {
          return Failed(SystemError(errno));
        }
        desc := INVALID_DESC;
      }
      status := Done;
    }

    /**
     * Move assignment: swaps with `rhs`, then closes what `rhs` now holds, so
     * this wrapper owns `rhs`'s descriptor and its own old one is closed.
     * Self-assignment does nothing.
     */
    method MoveAssign(rhs: FileDesc, kernel: Kernel, result: int, errno: int) returns (status: Status)
      modifies this, rhs, kernel
      ensures rhs == this ==> status == Done && desc == old(desc) && kernel.closed == old(kernel.closed)
      ensures rhs != this ==> desc == old(rhs.desc)
      ensures rhs != this && old(desc) == INVALID_DESC ==>
        status == Done && rhs.desc == INVALID_DESC && kernel.closed == old(kernel.closed)
      ensures rhs != this && old(desc) != INVALID_DESC ==> kernel.closed == old(kernel.closed) + [old(desc)]
      ensures rhs != this && old(desc) != INVALID_DESC ==>
        if result == 0 then status == Done && rhs.desc == INVALID_DESC
        else status == Failed(SystemError(errno)) && rhs.desc == old(desc)
    {
      if this != rhs {
        Swap(rhs);
        status := rhs.Close(kernel, result, errno);
      } else {
        status := Done;
      }
    }

    /** The destructor: closes, and swallows a failure of close(2). */
    method Destroy(kernel: Kernel, result: int)
      modifies this, kernel
      ensures kernel.closed == old(kernel.closed) + (if old(desc) != INVALID_DESC then [old(desc)] else [])
    {
      var _ := Close(kernel, result, 0);
    }

    /**
     * Reads up to `length` bytes; `bytesRead` is what read(2) returns. A
     * wrapper without a descriptor refuses before any call is made, and a
     * result of `-1` is reported as the system error `errno`.
     */
    method Read(length: nat, bytesRead: int, errno: int) returns (r: Result<nat>)
      requires bytesRead <= length
      ensures !IsOpen() ==> r == Err(LogicError("File is not open"))
      ensures IsOpen() && bytesRead == -1 ==> r == Err(SystemError(errno))
      ensures IsOpen() && bytesRead != -1 && bytesRead >= 0 ==> r == Ok(bytesRead)
    {
      var check := EnsureOpen();
      if check.Failed? {
        return Err(check.error);
      }
      if bytesRead != -1 {
        if bytesRead >= 0 {
          return Ok(bytesRead);
        }
      }
      r := Err(SystemError(errno));
    }

    method EnsureOpen() returns (status: Status)
      ensures status == if IsOpen() then Done else Failed(LogicError("File is not open"))
    {
      if !IsOpen() {
        return Failed(LogicError("File is not open"));
      }
      status := Done;
    }
  }

  /** Wraps `desc`, refusing a negative value other than `-1` as the constructor's exception does. */
  method NewFileDesc(desc: int) returns (r: Result<FileDesc>)
    ensures r.Err? <==> desc < -1
    ensures r.Err? ==> r.error == InvalidArgument("Invalid file descriptor")
    ensures r.Ok? ==> fresh(r.value) && r.value.Valid() && r.value.desc == desc
    ensures r.Ok? ==> (r.value.IsOpen() <==> desc >= 0)
  {
    if !(desc == INVALID_DESC || desc >= 0) {
      return Err(InvalidArgument("Invalid file descriptor"));
    }
    var fd := new FileDesc(desc);
    r := Ok(fd);
  }
}
