/**
 * The client's remote path composed with the server's handlers over a
 * transport that delivers every reply. `srv` is the server's operating
 * system, `os` the client's own; `s` is the client's state before the call.
 */
module EndToEnd {
  import opened Common
  import opened Posix
  import opened Wire
  import opened GreeterClient
  import GreeterServer

  /** A remote procedure whose every call reaches the handler and returns its reply. */
  function Served<Q, R>(handler: Q -> R): Q -> RpcResult<R> {
    q => Delivered(handler(q))
  }

  /** The fcntl procedure: a handler that aborts sends no reply, which the client sees as a failed call. */
  function ServedFcntl(srv: Os): FcntlRpc {
    req => match GreeterServer.Fcntl(req, srv)
           case Some(reply) => Delivered(reply)
           case None => TransportFailure
  }

  /**
   * A remote open that fails on the server returns -1 to the caller, yet
   * leaves `errno` as it was: the server's error code never reaches the client.
   */
  lemma FailedRemoteOpenLosesErrno(s: State, path: string, oflag: int, modeArg: int, os: Os, srv: Os)
    requires IsRemotePath(path)
    requires srv(SysOpen(path, oflag, OpenMode(oflag, modeArg))).ret == -1
    ensures var t := OpenStep(s, path, oflag, modeArg, os, Served(req => GreeterServer.Open(req, srv)));
            t.ret == -1 && t.post == s.(stub := true)
  {
  }

  /**
   * A remote open that succeeds on the server, in a process with no
   * placeholder yet, returns the placeholder just opened locally and
   * associates it with the server's descriptor.
   */
  lemma FirstRemoteOpenAssociates(s: State, path: string, oflag: int, modeArg: int, os: Os, srv: Os)
    requires IsRemotePath(path) && s.fdMap == map[] && s.fakefd.None?
    requires srv(SysOpen(path, oflag, OpenMode(oflag, modeArg))).ret != -1
    ensures var t := OpenStep(s, path, oflag, modeArg, os, Served(req => GreeterServer.Open(req, srv)));
            && t.ret == os(SysOpen(path + FAKE_SUFFIX, FAKE_FLAGS, FAKE_MODE)).ret
            && t.post.fdMap == map[t.ret := srv(SysOpen(path, oflag, OpenMode(oflag, modeArg))).ret]
  {
  }

  /** pwrite on an associated descriptor returns the server's count, and its errno when that is -1. */
  lemma RemotePwrite(s: State, fd: int, buf: seq<byte>, offset: int, os: Os, srv: Os)
    requires fd in s.fdMap
    ensures var out := srv(SysPwrite(s.fdMap[fd], buf, offset));
            var t := PwriteStep(s, fd, buf, offset, os, Served(req => GreeterServer.Pwrite(req, srv)));
            && t.ret == out.ret
            && t.post.errno == (if out.ret == -1 && out.errno != 0 then out.errno else s.errno)
  {
  }

  /**
   * pread on an associated descriptor: the reply never exceeds the buffer, so
   * the client's copy stays inside it; a successful read delivers exactly the
   * server's bytes and count; a failed read returns 0, not -1, with the
   * server's errno installed and nothing copied.
   */
  lemma RemotePread(s: State, fd: int, nbyte: nat, offset: int, os: Os, srv: Os)
    requires fd in s.fdMap
    ensures var out := srv(SysPread(s.fdMap[fd], nbyte, offset));
            var rpc := Served(req => GreeterServer.Pread(req, srv));
            var t := PreadStep(s, fd, nbyte, offset, os, rpc);
            var bytes := PreadBytes(s, fd, nbyte, offset, os, rpc);
            && |bytes| <= nbyte
            && (out.ret != -1 ==> t.ret == out.ret && bytes == out.data && t.post.errno == s.errno)
            && (out.ret == -1 ==> t.ret == 0 && bytes == [] &&
                                  t.post.errno == (if out.errno != 0 then out.errno else s.errno))
  {
  }

  /** flock on an associated descriptor fails with the server's errno exactly when the server's flock fails. */
  lemma RemoteFlock(s: State, fd: int, operation: int, os: Os, srv: Os)
    requires fd in s.fdMap
    ensures var out := srv(SysFlock(s.fdMap[fd], operation));
            var t := FlockStep(s, fd, operation, os, Served(req => GreeterServer.Flock(req, srv)));
            && (t.ret == -1 <==> out.ret == -1 && out.errno != 0)
            && (t.ret != -1 ==> t.ret == 0 && t.post.errno == s.errno)
            && (t.ret == -1 ==> t.post.errno == out.errno)
  {
  }

  /** fsync on an associated descriptor fails with the server's errno exactly when the server's fsync fails. */
  lemma RemoteFsync(s: State, fd: int, os: Os, srv: Os)
    requires fd in s.fdMap
    ensures var out := srv(SysFsync(s.fdMap[fd]));
            var t := FsyncStep(s, fd, os, Served(req => GreeterServer.Fsync(req, srv)));
            && (t.ret == -1 <==> out.ret == -1 && out.errno != 0)
            && (t.ret != -1 ==> t.ret == 0 && t.post.errno == s.errno)
            && (t.ret == -1 ==> t.post.errno == out.errno)
  {
  }

  /**
   * F_GETFL and F_SETFL on an associated descriptor hand the caller's flag
   * word to the server's fcntl, and return 0 on success, not what the
   * server's fcntl returned (for F_GETFL, the flags themselves).
   */
  lemma RemoteFcntlFlags(s: State, fd: int, cmd: int, arg: int, os: Os, srv: Os)
    requires fd in s.fdMap && IsFlagsCmd(cmd)
    ensures var out := srv(SysFcntl(s.fdMap[fd], cmd, Word(arg)));
            var t := FcntlStep(s, fd, cmd, arg, os, ServedFcntl(srv));
            && (out.ret != -1 ==> t.ret == 0 && t.post.errno == s.errno)
            && (out.ret == -1 && out.errno != 0 ==> t.ret == -1 && t.post.errno == out.errno)
  {
  }

  /**
   * Every other fcntl command on an associated descriptor (F_GETFD, F_SETFD,
   * F_DUPFD, ...) drops the caller's argument: the server's fcntl receives
   * the address of its scratch buffer, and the client returns 0 on success,
   * not what that fcntl returned.
   */
  lemma RemoteFcntlOther(s: State, fd: int, cmd: int, arg: int, os: Os, srv: Os)
    requires fd in s.fdMap && !IsLockCmd(cmd) && !IsFlagsCmd(cmd)
    ensures var out := srv(SysFcntl(s.fdMap[fd], cmd, Scratch));
            var t := FcntlStep(s, fd, cmd, arg, os, ServedFcntl(srv));
            && (out.ret != -1 ==> t.ret == 0 && t.post.errno == s.errno)
            && (out.ret == -1 && out.errno != 0 ==> t.ret == -1 && t.post.errno == out.errno)
  {
  }

  /**
   * The record-lock commands on an associated descriptor never reach the
   * server: whatever the remote procedure would answer, the result is the
   * real fcntl's on the local placeholder.
   */
  lemma RecordLocksStayLocal(s: State, fd: int, cmd: int, arg: int, os: Os, rpc1: FcntlRpc, rpc2: FcntlRpc)
    requires fd in s.fdMap && IsLockCmd(cmd)
    ensures FcntlStep(s, fd, cmd, arg, os, rpc1) == FcntlStep(s, fd, cmd, arg, os, rpc2)
    ensures FcntlStep(s, fd, cmd, arg, os, rpc1).ret == os(SysFcntl(fd, cmd, Word(arg))).ret
  {
  }

  /** lseek on an associated descriptor returns the server's resulting offset, -1 and its errno on failure. */
  lemma RemoteLseek(s: State, fd: int, offset: int, whence: int, os: Os, srv: Os)
    requires fd in s.fdMap
    ensures var out := srv(SysLseek(s.fdMap[fd], offset, whence));
            var t := LseekStep(s, fd, offset, whence, os, Served(req => GreeterServer.Lseek(req, srv)));
            && t.ret == out.ret
            && t.post.errno == (if out.ret == -1 && out.errno != 0 then out.errno else s.errno)
  {
  }
}
