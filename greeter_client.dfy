/**
 * The client's interception layer, as functions over its global state.
 *
 * Each intercepted entry point looks its descriptor up in `fdMap`: an
 * unknown descriptor goes to the real call, a known one is forwarded to the
 * server under the remote descriptor it maps to. `open` decides by the path
 * prefix instead, and on a successful remote open keys the association by a
 * single placeholder descriptor minted on first use. A step function takes
 * the state before the call, the call's arguments, the operating system and
 * the remote procedure, and gives the state after the call and its return
 * value; the class in module Interposer is proved to do exactly this.
 */
module GreeterClient {
  import opened Common
  import opened Posix
  import opened Wire

  /** Paths with this prefix are opened on the server. */
  const REMOTE_PREFIX: string := "./test/"
  /** The placeholder descriptor is a real local file named after the first remote path, with this suffix. */
  const FAKE_SUFFIX: string := ".fake"
  /** O_CREAT | O_WRONLY: the two flags are distinct bits. */
  const FAKE_FLAGS: int := O_CREAT + O_WRONLY
  /** Mode 0200: write permission for the owner only. */
  const FAKE_MODE: int := 0x80

  /** The path's first seven characters are "./test/" (a shorter path never matches). */
  predicate IsRemotePath(path: string) {
    |REMOTE_PREFIX| <= |path| && path[..|REMOTE_PREFIX|] == REMOTE_PREFIX
  }

  /**
   * `oflag & O_CREAT` is nonzero. O_CREAT is a single bit; floor division and
   * a non-negative remainder read that bit of the two's-complement word, so
   * this holds for negative flag words too.
   */
  predicate HasCreat(oflag: int) {
    (oflag / O_CREAT) % 2 == 1
  }

  /** The mode open reads from its variadic argument only when O_CREAT is set. */
  function OpenMode(oflag: int, modeArg: int): int {
    if HasCreat(oflag) then modeArg else 0
  }

  /**
   * The client's globals: the association table, the placeholder descriptor
   * (assigned at most once), the process `errno`, and whether the stub has
   * been created.
   */
  datatype State = State(fdMap: map<int, int>, fakefd: Option<int>, errno: int, stub: bool)

  /** The globals at process start; `errno` is whatever the process holds. */
  function Initial(errno: int): State {
    State(map[], None, errno, false)
  }

  /** The state after an intercepted call and the value the call returns. */
  datatype Step = Step(post: State, ret: int)

  /** Associations are never removed or changed, and a placeholder once minted stays. */
  ghost predicate Grows(s: State, s': State) {
    && s.fdMap.Keys <= s'.fdMap.Keys
    && (forall fd :: fd in s.fdMap ==> s'.fdMap[fd] == s.fdMap[fd])
    && (s.fakefd.Some? ==> s'.fakefd == s.fakefd)
  }

  /** The table holds at most the placeholder's association, and nothing before a placeholder exists. */
  predicate OneAssociation(s: State) {
    match s.fakefd
    case None => s.fdMap == map[]
    case Some(f) => s.fdMap.Keys <= {f}
  }

  /** Local passthrough: the real call's result and errno reach the caller unchanged. */
  function Delegate(s: State, out: Outcome): Step {
    Step(s.(errno := out.errno), out.ret)
  }

  /** `if (int err = reply.err()) errno = err;` */
  function Install(s: State, err: int): State {
    if err != 0 then s.(errno := err) else s
  }

  /** The remote tail shared by flock, fcntl and fsync. */
  function ErrnoStep(s: State, r: RpcResult<ErrnoResponse>): (t: Step)
    ensures t.ret == -1 || t.ret == 0
    ensures t.ret == -1 <==> r.TransportFailure? || r.reply.err != 0
    ensures r.TransportFailure? ==> t.post == s
    ensures r.Delivered? ==> t.post.errno == (if r.reply.err != 0 then r.reply.err else s.errno)
    ensures t.post.fdMap == s.fdMap && t.post.fakefd == s.fakefd && t.post.stub == s.stub
  {
    match r
    case TransportFailure => Step(s, -1)
    case Delivered(reply) =>
      if reply.err != 0 then Step(s.(errno := reply.err), -1) else Step(s, 0)
  }

  function OpenStep(s: State, path: string, oflag: int, modeArg: int, os: Os, rpc: OpenRpc): (t: Step)
    ensures Grows(s, t.post)
    ensures OneAssociation(s) ==> OneAssociation(t.post)
    ensures !IsRemotePath(path) ==> t == Delegate(s, os(SysOpen(path, oflag, OpenMode(oflag, modeArg))))
    ensures IsRemotePath(path) ==>
              var r := rpc(OpenRequest(path, oflag, OpenMode(oflag, modeArg)));
              && t.post.stub
              && (r.TransportFailure? ==> t == Step(s.(stub := true), -1))
              && (r.Delivered? && r.reply.fd == -1 ==>
                    t == Step(s.(stub := true, errno := if r.reply.err != 0 then r.reply.err else s.errno), -1))
              && (r.Delivered? && r.reply.fd != -1 ==>
                    && t.post.fakefd == Some(t.ret)
                    && (s.fakefd.Some? ==>
                          t.ret == s.fakefd.value && t.post.errno == (if r.reply.err != 0 then r.reply.err else s.errno))
                    && (s.fakefd.None? ==>
                          var fake := os(SysOpen(path + FAKE_SUFFIX, FAKE_FLAGS, FAKE_MODE));
                          t.ret == fake.ret && t.post.errno == fake.errno)
                    && t.post.fdMap == (if t.ret in s.fdMap then s.fdMap else s.fdMap[t.ret := r.reply.fd]))
  {
    var mode := OpenMode(oflag, modeArg);
    if !IsRemotePath(path) then Delegate(s, os(SysOpen(path, oflag, mode)))
    else
      var s1 := s.(stub := true);
      match rpc(OpenRequest(path, oflag, mode))
      case TransportFailure => Step(s1, -1)
      case Delivered(reply) =>
        var s2 := Install(s1, reply.err);
        if reply.fd == -1 then Step(s2, -1)
        else
          var s3 :=
            if s2.fakefd.Some? then s2
            else
              var fake := os(SysOpen(path + FAKE_SUFFIX, FAKE_FLAGS, FAKE_MODE));
              s2.(fakefd := Some(fake.ret), errno := fake.errno);
          var local := s3.fakefd.value;
          // std::map::insert leaves an existing entry alone
          var s4 := if local in s3.fdMap then s3 else s3.(fdMap := s3.fdMap[local := reply.fd]);
          Step(s4, local)
  }

  function CloseStep(s: State, fd: int, os: Os): (t: Step)
    ensures t.post.fdMap == s.fdMap && t.post.fakefd == s.fakefd
    ensures fd !in s.fdMap ==> t == Delegate(s, os(SysClose(fd)))
    ensures fd in s.fdMap ==> t.ret == 0 && t.post == s.(stub := true)
  {
    if fd !in s.fdMap then Delegate(s, os(SysClose(fd)))
    else Step(s.(stub := true), 0)
  }

  function PwriteStep(s: State, fd: int, buf: seq<byte>, offset: int, os: Os, rpc: WriteRpc): (t: Step)
    ensures t.post.fdMap == s.fdMap && t.post.fakefd == s.fakefd
    ensures fd !in s.fdMap ==> t == Delegate(s, os(SysPwrite(fd, buf, offset)))
    ensures fd in s.fdMap ==>
              var r := rpc(WriteRequest(s.fdMap[fd], buf, offset));
              && (r.TransportFailure? ==> t == Step(s.(stub := true), -1))
              && (r.Delivered? ==>
                    && t.ret == r.reply.numwritten
                    && t.post == s.(stub := true, errno := if r.reply.err != 0 then r.reply.err else s.errno))
  {
    if fd !in s.fdMap then Delegate(s, os(SysPwrite(fd, buf, offset)))
    else
      var s1 := s.(stub := true);
      match rpc(WriteRequest(s.fdMap[fd], buf, offset))
      case TransportFailure => Step(s1, -1)
      case Delivered(reply) => Step(Install(s1, reply.err), reply.numwritten)
  }

  function PreadStep(s: State, fd: int, nbyte: nat, offset: int, os: Os, rpc: ReadRpc): (t: Step)
    ensures t.post.fdMap == s.fdMap && t.post.fakefd == s.fakefd
    ensures fd !in s.fdMap ==> t == Delegate(s, os(SysPread(fd, nbyte, offset)))
    ensures fd in s.fdMap ==>
              var r := rpc(ReadRequest(s.fdMap[fd], nbyte, offset));
              && (r.TransportFailure? ==> t == Step(s.(stub := true), -1))
              && (r.Delivered? ==>
                    && t.ret == |r.reply.buf|
                    && t.post == s.(stub := true, errno := if r.reply.err != 0 then r.reply.err else s.errno))
  {
    if fd !in s.fdMap then Delegate(s, os(SysPread(fd, nbyte, offset)))
    else
      var s1 := s.(stub := true);
      match rpc(ReadRequest(s.fdMap[fd], nbyte, offset))
      case TransportFailure => Step(s1, -1)
      case Delivered(reply) => Step(Install(s1, reply.err), |reply.buf|)
  }

  /** The bytes pread places at the front of the caller's buffer: the real call's, the reply's, or none. */
  function PreadBytes(s: State, fd: int, nbyte: nat, offset: int, os: Os, rpc: ReadRpc): seq<byte> {
    if fd !in s.fdMap then os(SysPread(fd, nbyte, offset)).data
    else
      match rpc(ReadRequest(s.fdMap[fd], nbyte, offset))
      case TransportFailure => []
      case Delivered(reply) => reply.buf
  }

  /** `dst` after `src` is copied over its front. */
  function Overlay(dst: seq<byte>, src: seq<byte>): (r: seq<byte>)
    requires |src| <= |dst|
  {
    src + dst[|src|..]
  }

  function FlockStep(s: State, fd: int, operation: int, os: Os, rpc: FlockRpc): (t: Step)
    ensures t.post.fdMap == s.fdMap && t.post.fakefd == s.fakefd
    ensures fd !in s.fdMap ==> t == Delegate(s, os(SysFlock(fd, operation)))
    ensures fd in s.fdMap ==> t == ErrnoStep(s.(stub := true), rpc(FlockRequest(s.fdMap[fd], operation)))
  {
    if fd !in s.fdMap then Delegate(s, os(SysFlock(fd, operation)))
    else ErrnoStep(s.(stub := true), rpc(FlockRequest(s.fdMap[fd], operation)))
  }

  /**
   * fcntl with its variadic argument read as `arg`. On an associated
   * descriptor the lock commands go to the real fcntl on the local
   * descriptor; every other command is forwarded, carrying `arg` as the flag
   * word only for the descriptor-flag commands.
   */
  function FcntlStep(s: State, fd: int, cmd: int, arg: int, os: Os, rpc: FcntlRpc): (t: Step)
    ensures t.post.fdMap == s.fdMap && t.post.fakefd == s.fakefd
    ensures fd !in s.fdMap ==> t == Delegate(s, os(SysFcntl(fd, cmd, Word(arg))))
    ensures fd in s.fdMap && IsLockCmd(cmd) ==> t == Delegate(s.(stub := true), os(SysFcntl(fd, cmd, Word(arg))))
    ensures fd in s.fdMap && IsFlagsCmd(cmd) ==>
              t == ErrnoStep(s.(stub := true), rpc(FcntlRequest(s.fdMap[fd], cmd, arg, None)))
    ensures fd in s.fdMap && !IsLockCmd(cmd) && !IsFlagsCmd(cmd) ==>
              t == ErrnoStep(s.(stub := true), rpc(FcntlRequest(s.fdMap[fd], cmd, 0, None)))
  {
    if fd !in s.fdMap then Delegate(s, os(SysFcntl(fd, cmd, Word(arg))))
    else
      var s1 := s.(stub := true);
      if IsLockCmd(cmd) then Delegate(s1, os(SysFcntl(fd, cmd, Word(arg))))
      else
        var flags := if IsFlagsCmd(cmd) then arg else 0;
        ErrnoStep(s1, rpc(FcntlRequest(s.fdMap[fd], cmd, flags, None)))
  }

  function LseekStep(s: State, fd: int, offset: int, whence: int, os: Os, rpc: LseekRpc): (t: Step)
    ensures t.post.fdMap == s.fdMap && t.post.fakefd == s.fakefd
    ensures fd !in s.fdMap ==> t == Delegate(s, os(SysLseek(fd, offset, whence)))
    ensures fd in s.fdMap ==>
              var r := rpc(LseekRequest(s.fdMap[fd], offset, whence));
              && (r.TransportFailure? ==> t == Step(s.(stub := true), -1))
              && (r.Delivered? ==>
                    && t.ret == r.reply.offset
                    && t.post == s.(stub := true, errno := if r.reply.err != 0 then r.reply.err else s.errno))
  {
    if fd !in s.fdMap then Delegate(s, os(SysLseek(fd, offset, whence)))
    else
      var s1 := s.(stub := true);
      match rpc(LseekRequest(s.fdMap[fd], offset, whence))
      case TransportFailure => Step(s1, -1)
      case Delivered(reply) => Step(Install(s1, reply.err), reply.offset)
  }

  function FsyncStep(s: State, fd: int, os: Os, rpc: FsyncRpc): (t: Step)
    ensures t.post.fdMap == s.fdMap && t.post.fakefd == s.fakefd
    ensures fd !in s.fdMap ==> t == Delegate(s, os(SysFsync(fd)))
    ensures fd in s.fdMap ==> t == ErrnoStep(s.(stub := true), rpc(FsyncRequest(s.fdMap[fd])))
  {
    if fd !in s.fdMap then Delegate(s, os(SysFsync(fd)))
    else ErrnoStep(s.(stub := true), rpc(FsyncRequest(s.fdMap[fd])))
  }

  /** stat never consults the classification: it always goes to the real call. */
  function StatStep(s: State, path: string, os: Os): Step {
    Delegate(s, os(SysStat(path)))
  }
}
