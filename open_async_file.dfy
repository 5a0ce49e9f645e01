/**
 * Opening a file asynchronously (lab7/asyncFile/OpenAsyncFile.h): the open
 * flags and permission bits chosen for each mode, and the awaiter that
 * queues the open and hands over the new descriptor. The constants are the
 * Linux values of the `open(2)` flags and the `stat` permission bits.
 */
module AsyncOpen {
  import opened Outcomes
  import opened AsyncFiles

  const O_ACCMODE: bv32 := 3
  const O_RDONLY: bv32 := 0
  const O_WRONLY: bv32 := 1
  const O_CREAT: bv32 := 0x40
  const O_TRUNC: bv32 := 0x200

  const S_IRUSR: bv32 := 0x100
  const S_IWUSR: bv32 := 0x80
  const S_IRGRP: bv32 := 0x20
  const S_IROTH: bv32 := 0x4
  /** Group and other write permission. */
  const S_IWGRP_IWOTH: bv32 := 0x12

  datatype OpenMode = Read | Write

  /**
   * The flags for a mode: reading opens read-only and never creates or
   * truncates; writing opens write-only, creating the file and always
   * truncating it.
   */
  function OpenFlags(mode: OpenMode): (flags: bv32)
    ensures mode == Read ==> flags & O_ACCMODE == O_RDONLY && flags & O_CREAT == 0 && flags & O_TRUNC == 0
    ensures mode == Write ==> flags & O_ACCMODE == O_WRONLY && flags & O_CREAT == O_CREAT && flags & O_TRUNC == O_TRUNC
  {
    if mode == Read then O_RDONLY else O_WRONLY | O_CREAT | O_TRUNC
  }

  /** The permissions of a created file: `rw-r--r--` whatever the mode. */
  function FileMode(): (m: bv32)
    ensures m == 0x1A4
    ensures m & S_IWGRP_IWOTH == 0
  {
    S_IRUSR | S_IWUSR | S_IRGRP | S_IROTH
  }

  class OpenAwaiter {
    const dispatcher: Dispatcher
    const path: string
    const flags: bv32
    const mode: bv32
    const state: OperationState

    constructor(dispatcher: Dispatcher, path: string, flags: bv32, mode: bv32)
      ensures this.dispatcher == dispatcher && this.path == path && this.flags == flags && this.mode == mode
      ensures fresh(state) && state.handle == None && state.res == 0
    {
      this.dispatcher := dispatcher;
      this.path := path;
      this.flags := flags;
      this.mode := mode;
      state := new OperationState();
    }

    function AwaitReady(): (ready: bool)
      ensures !ready
    {
      false
    }

    /** Records who to resume and queues exactly one open of the awaiter's path with its flags and mode. */
    method AwaitSuspend(handle: Handle)
      modifies state, dispatcher
      ensures state.handle == Some(handle)
      ensures dispatcher.queued == old(dispatcher.queued) + [Submission(state, OpenAt(path, flags, mode))]
      ensures dispatcher.activeOperations == old(dispatcher.activeOperations) + 1
    {
      state.handle := Some(handle);
      dispatcher.QueueOpen(state, path, flags, mode);
    }

    /** "File open failed" for a negative completion code, otherwise a new file owning exactly that descriptor. */
    method AwaitResume() returns (r: Result<AsyncFile>)
      ensures r.Err? <==> state.res < 0
      ensures r.Err? ==> r.error == RuntimeError("File open failed")
      ensures r.Ok? ==> fresh(r.value) && r.value.fd == state.res
    {
      if state.res < 0 {
        return Err(RuntimeError("File open failed"));
      }
      var file := new AsyncFile(state.res);
      r := Ok(file);
    }
  }

  /** An awaiter that opens `path` with the flags for `mode` and the fixed permissions. */
  method AsyncOpenFile(dispatcher: Dispatcher, path: string, mode: OpenMode) returns (awaiter: OpenAwaiter)
    ensures fresh(awaiter) && fresh(awaiter.state)
    ensures awaiter.dispatcher == dispatcher && awaiter.path == path
    ensures awaiter.flags == OpenFlags(mode) && awaiter.mode == FileMode()
  {
    var flags := if mode == OpenMode.Read then O_RDONLY else O_WRONLY | O_CREAT | O_TRUNC;
    var fileMode := S_IRUSR | S_IWUSR | S_IRGRP | S_IROTH;
    awaiter := new OpenAwaiter(dispatcher, path, flags, fileMode);
  }
}
