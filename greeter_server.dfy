/**
 * The server's request handlers. Each handler makes one call into the real
 * file API on the server's own descriptors and builds its reply from what
 * the call returned and from `errno` right after it; a handler keeps no
 * state of its own.
 */
module GreeterServer {
  import opened Common
  import opened Posix
  import opened Wire

  /** Open the requested path; the reply carries the descriptor and never an error code. */
  function Open(req: OpenRequest, os: Os): (r: OpenResponse)
    ensures r.fd == os(SysOpen(req.path, req.oflag, req.mode)).ret
    ensures r.err == 0
  {
    var out := os(SysOpen(req.path, req.oflag, req.mode));
    OpenResponse(out.ret, 0)
  }

  /** Positional write of the whole request buffer. */
  function Pwrite(req: WriteRequest, os: Os): (r: WriteResponse)
    ensures var out := os(SysPwrite(req.fd, req.buf, req.offset));
            && r.numwritten == out.ret
            && (out.ret == -1 ==> r.err == out.errno)
            && (out.ret != -1 ==> r.err == 0)
  {
    var out := os(SysPwrite(req.fd, req.buf, req.offset));
    WriteResponse(out.ret, if out.ret == -1 then out.errno else 0)
  }

  /** Positional read into a zeroed scratch buffer of the requested length. */
  function Pread(req: ReadRequest, os: Os): (r: ReadResponse)
    ensures |r.buf| <= req.nbyte
    ensures var out := os(SysPread(req.fd, req.nbyte, req.offset));
            && (out.ret == -1 ==> r.buf == [] && r.err == out.errno)
            && (out.ret != -1 ==> r.buf == out.data && r.err == 0)
  {
    var out := os(SysPread(req.fd, req.nbyte, req.offset));
    var scratch := out.data + seq(req.nbyte - |out.data|, _ => 0 as byte);
    if out.ret == -1 then ReadResponse([], out.errno)
    else ReadResponse(scratch[..out.ret], 0)
  }

  /** The error-only reply: the call's errno when it returned -1, otherwise the default 0. */
  function ErrnoReply(out: Outcome): ErrnoResponse {
    if out.ret == -1 then ErrnoResponse(out.errno) else ErrnoResponse(0)
  }

  function Flock(req: FlockRequest, os: Os): (r: ErrnoResponse)
    ensures var out := os(SysFlock(req.fd, req.operation));
            && (out.ret == -1 ==> r.err == out.errno)
            && (out.ret != -1 ==> r.err == 0)
  {
    ErrnoReply(os(SysFlock(req.fd, req.operation)))
  }

  /**
   * The argument handed to fcntl: the flag word for the descriptor-flag
   * commands, a lock built from the five request fields for the lock
   * commands, the scratch buffer's address otherwise. None when a lock
   * command arrives without a lock: the handler's assertion stops the server.
   */
  function FcntlArgFor(req: FcntlRequest): Option<FcntlArg> {
    if IsLockCmd(req.cmd) then
      match req.lk
      case None => None
      case Some(lk) => Some(Lock(FlockStruct(lk.lType, lk.lWhence, lk.lStart, lk.lLen, lk.lPid)))
    else if IsFlagsCmd(req.cmd) then Some(Word(req.descriptorFlags))
    else Some(Scratch)
  }

  /** fcntl on the request's descriptor; None when the handler aborts instead of replying. */
  function Fcntl(req: FcntlRequest, os: Os): (r: Option<ErrnoResponse>)
    ensures r.None? <==> IsLockCmd(req.cmd) && req.lk.None?
    ensures IsFlagsCmd(req.cmd) ==>
              var out := os(SysFcntl(req.fd, req.cmd, Word(req.descriptorFlags)));
              && r.Some?
              && (out.ret == -1 ==> r.value.err == out.errno)
              && (out.ret != -1 ==> r.value.err == 0)
    ensures IsLockCmd(req.cmd) && req.lk.Some? ==>
              var lk := req.lk.value;
              var out := os(SysFcntl(req.fd, req.cmd, Lock(FlockStruct(lk.lType, lk.lWhence, lk.lStart, lk.lLen, lk.lPid))));
              && r.Some?
              && (out.ret == -1 ==> r.value.err == out.errno)
              && (out.ret != -1 ==> r.value.err == 0)
    ensures !IsLockCmd(req.cmd) && !IsFlagsCmd(req.cmd) ==>
              var out := os(SysFcntl(req.fd, req.cmd, Scratch));
              && r.Some?
              && (out.ret == -1 ==> r.value.err == out.errno)
              && (out.ret != -1 ==> r.value.err == 0)
  {
    match FcntlArgFor(req)
    case None => None
    case Some(arg) => Some(ErrnoReply(os(SysFcntl(req.fd, req.cmd, arg))))
  }

  /** lseek; the reply always carries the resulting offset, -1 included. */
  function Lseek(req: LseekRequest, os: Os): (r: LseekResponse)
    ensures var out := os(SysLseek(req.fd, req.offset, req.whence));
            && r.offset == out.ret
            && (out.ret == -1 ==> r.err == out.errno)
            && (out.ret != -1 ==> r.err == 0)
  {
    var out := os(SysLseek(req.fd, req.offset, req.whence));
    LseekResponse(out.ret, if out.ret == -1 then out.errno else 0)
  }

  function Fsync(req: FsyncRequest, os: Os): (r: ErrnoResponse)
    ensures var out := os(SysFsync(req.fd));
            && (out.ret == -1 ==> r.err == out.errno)
            && (out.ret != -1 ==> r.err == 0)
  {
    ErrnoReply(os(SysFsync(req.fd)))
  }
}
