/**
 * The client's entry points as they run: the globals are fields of a `Shim`
 * object and each intercepted call updates them in place, in the order the
 * entry point does. Every method is proved to agree with its step function
 * in module GreeterClient.
 */
module Interposer {
  import opened Common
  import opened Posix
  import opened Wire
  import opened GreeterClient

  /** memcpy of `src` to the front of `dst`. */
  method Memcpy(dst: array<byte>, src: seq<byte>)
    requires |src| <= dst.Length
    modifies dst
    ensures dst[..] == Overlay(old(dst[..]), src)
  {
    forall i | 0 <= i < |src| {
      dst[i] := src[i];
    }
  }

  class Shim {
    var fdMap: map<int, int>
    var fakefd: Option<int>
    var errno: int
    var stub: bool

    /** The globals as one value. */
    function Snapshot(): State
      reads this
    {
      State(fdMap, fakefd, errno, stub)
    }

    /** The globals at process start. */
    constructor (errno0: int)
      ensures Snapshot() == Initial(errno0)
    {
      fdMap := map[];
      fakefd := None;
      errno := errno0;
      stub := false;
    }

    method Open(path: string, oflag: int, modeArg: int, os: Os, rpc: OpenRpc) returns (fd: int)
      modifies this
      ensures Step(Snapshot(), fd) == OpenStep(old(Snapshot()), path, oflag, modeArg, os, rpc)
    {
      var mode := 0;
      if HasCreat(oflag) {
        mode := modeArg;
      }
      if !IsRemotePath(path) {
        var out := os(SysOpen(path, oflag, mode));
        errno := out.errno;
        return out.ret;
      }
      stub := true;
      var status := rpc(OpenRequest(path, oflag, mode));
      if status.TransportFailure? {
        return -1;
      }
      var reply := status.reply;
      if reply.err != 0 {
        errno := reply.err;
      }
      var remotefd := reply.fd;
      if remotefd == -1 {
        return -1;
      }
      if fakefd.None? {
        var out := os(SysOpen(path + FAKE_SUFFIX, FAKE_FLAGS, FAKE_MODE));
        fakefd := Some(out.ret);
        errno := out.errno;
      }
      var local := fakefd.value;
      if local !in fdMap {
        fdMap := fdMap[local := remotefd];
      }
      return local;
    }

    method Close(localfd: int, os: Os) returns (ret: int)
      modifies this
      ensures Step(Snapshot(), ret) == CloseStep(old(Snapshot()), localfd, os)
    {
      if localfd !in fdMap {
        var out := os(SysClose(localfd));
        errno := out.errno;
        return out.ret;
      }
      stub := true;
      return 0;
    }

    method Pwrite(localfd: int, buf: seq<byte>, offset: int, os: Os, rpc: WriteRpc) returns (ret: int)
      modifies this
      ensures Step(Snapshot(), ret) == PwriteStep(old(Snapshot()), localfd, buf, offset, os, rpc)
    {
      if localfd !in fdMap {
        var out := os(SysPwrite(localfd, buf, offset));
        errno := out.errno;
        return out.ret;
      }
      stub := true;
      var status := rpc(WriteRequest(fdMap[localfd], buf, offset));
      if status.TransportFailure? {
        return -1;
      }
      if status.reply.err != 0 {
        errno := status.reply.err;
      }
      return status.reply.numwritten;
    }

    /**
     * pread into `buf`, whose length is the byte count asked for. The copy of
     * the reply trusts the server to send no more than was asked for.
     */
    method Pread(localfd: int, buf: array<byte>, offset: int, os: Os, rpc: ReadRpc) returns (ret: int)
      requires localfd in fdMap && rpc(ReadRequest(fdMap[localfd], buf.Length, offset)).Delivered? ==>
                 |rpc(ReadRequest(fdMap[localfd], buf.Length, offset)).reply.buf| <= buf.Length
      modifies this, buf
      ensures Step(Snapshot(), ret) == PreadStep(old(Snapshot()), localfd, buf.Length, offset, os, rpc)
      ensures buf[..] == Overlay(old(buf[..]), PreadBytes(old(Snapshot()), localfd, buf.Length, offset, os, rpc))
    {
      if localfd !in fdMap {
        var out := os(SysPread(localfd, buf.Length, offset));
        Memcpy(buf, out.data);
        errno := out.errno;
        return out.ret;
      }
      stub := true;
      var status := rpc(ReadRequest(fdMap[localfd], buf.Length, offset));
      if status.TransportFailure? {
        return -1;
      }
      if status.reply.err != 0 {
        errno := status.reply.err;
      }
      Memcpy(buf, status.reply.buf);
      return |status.reply.buf|;
    }

    method Flock(localfd: int, operation: int, os: Os, rpc: FlockRpc) returns (ret: int)
      modifies this
      ensures Step(Snapshot(), ret) == FlockStep(old(Snapshot()), localfd, operation, os, rpc)
    {
      if localfd !in fdMap {
        var out := os(SysFlock(localfd, operation));
        errno := out.errno;
        return out.ret;
      }
      stub := true;
      var status := rpc(FlockRequest(fdMap[localfd], operation));
      ret := ReplyErrno(status);
    }

    /** fcntl; `nextreg` is the variadic argument, read whatever the command. */
    method Fcntl(localfd: int, cmd: int, nextreg: int, os: Os, rpc: FcntlRpc) returns (ret: int)
      modifies this
      ensures Step(Snapshot(), ret) == FcntlStep(old(Snapshot()), localfd, cmd, nextreg, os, rpc)
    {
      if localfd !in fdMap {
        var out := os(SysFcntl(localfd, cmd, Word(nextreg)));
        errno := out.errno;
        return out.ret;
      }
      stub := true;
      var flags := 0;
      if IsLockCmd(cmd) {
        var out := os(SysFcntl(localfd, cmd, Word(nextreg)));
        errno := out.errno;
        return out.ret;
      } else if IsFlagsCmd(cmd) {
        flags := nextreg;
      }
      var status := rpc(FcntlRequest(fdMap[localfd], cmd, flags, None));
      ret := ReplyErrno(status);
    }

    method Lseek(localfd: int, offset: int, whence: int, os: Os, rpc: LseekRpc) returns (ret: int)
      modifies this
      ensures Step(Snapshot(), ret) == LseekStep(old(Snapshot()), localfd, offset, whence, os, rpc)
    {
      if localfd !in fdMap {
        var out := os(SysLseek(localfd, offset, whence));
        errno := out.errno;
        return out.ret;
      }
      stub := true;
      var status := rpc(LseekRequest(fdMap[localfd], offset, whence));
      if status.TransportFailure? {
        return -1;
      }
      if status.reply.err != 0 {
        errno := status.reply.err;
      }
      return status.reply.offset;
    }

    method Fsync(localfd: int, os: Os, rpc: FsyncRpc) returns (ret: int)
      modifies this
      ensures Step(Snapshot(), ret) == FsyncStep(old(Snapshot()), localfd, os, rpc)
    {
      if localfd !in fdMap {
        var out := os(SysFsync(localfd));
        errno := out.errno;
        return out.ret;
      }
      stub := true;
      var status := rpc(FsyncRequest(fdMap[localfd]));
      ret := ReplyErrno(status);
    }

    /** stat goes to the real call whatever the path. */
    method Stat(path: string, os: Os) returns (ret: int)
      modifies this
      ensures Step(Snapshot(), ret) == StatStep(old(Snapshot()), path, os)
      ensures fdMap == old(fdMap) && fakefd == old(fakefd) && stub == old(stub)
    {
      var out := os(SysStat(path));
      errno := out.errno;
      return out.ret;
    }

    /** The tail of flock, fcntl and fsync: a failed status or a nonzero err gives -1, else 0. */
    method ReplyErrno(status: RpcResult<ErrnoResponse>) returns (ret: int)
      modifies this
      ensures Step(Snapshot(), ret) == ErrnoStep(old(Snapshot()), status)
    {
      if status.TransportFailure? {
        return -1;
      }
      if status.reply.err != 0 {
        errno := status.reply.err;
        return -1;
      }
      return 0;
    }
  }
}
