/**
 * Sequences of intercepted calls. Each `Op` is one call together with the
 * operating system and remote procedure it meets; `Run` applies a sequence
 * of them to the client's globals. The lemmas here are about what holds
 * after any such sequence.
 */
module Traces {
  import opened Common
  import opened Posix
  import opened Wire
  import opened GreeterClient

  datatype Op =
    | OpenOp(path: string, oflag: int, modeArg: int, os: Os, openRpc: OpenRpc)
    | CloseOp(fd: int, os: Os)
    | PwriteOp(fd: int, buf: seq<byte>, offset: int, os: Os, writeRpc: WriteRpc)
    | PreadOp(fd: int, nbyte: nat, offset: int, os: Os, readRpc: ReadRpc)
    | FlockOp(fd: int, operation: int, os: Os, flockRpc: FlockRpc)
    | FcntlOp(fd: int, cmd: int, arg: int, os: Os, fcntlRpc: FcntlRpc)
    | LseekOp(fd: int, offset: int, whence: int, os: Os, lseekRpc: LseekRpc)
    | FsyncOp(fd: int, os: Os, fsyncRpc: FsyncRpc)
    | StatOp(path: string, os: Os)

  /** An open whose path is classified remote. */
  predicate IsRemoteOpen(op: Op) {
    op.OpenOp? && IsRemotePath(op.path)
  }

  /** A remote open whose reply arrives with a descriptor other than -1. */
  predicate RemoteOpenSucceeds(op: Op) {
    && IsRemoteOpen(op)
    && var r := op.openRpc(OpenRequest(op.path, op.oflag, OpenMode(op.oflag, op.modeArg)));
    && r.Delivered?
    && r.reply.fd != -1
  }

  /** One intercepted call. Only a remote open can touch the table or the placeholder. */
  function Exec(s: State, op: Op): (t: Step)
    ensures Grows(s, t.post)
    ensures OneAssociation(s) ==> OneAssociation(t.post)
    ensures !IsRemoteOpen(op) ==> t.post.fdMap == s.fdMap && t.post.fakefd == s.fakefd
  {
    match op
    case OpenOp(path, oflag, modeArg, os, rpc) => OpenStep(s, path, oflag, modeArg, os, rpc)
    case CloseOp(fd, os) => CloseStep(s, fd, os)
    case PwriteOp(fd, buf, offset, os, rpc) => PwriteStep(s, fd, buf, offset, os, rpc)
    case PreadOp(fd, nbyte, offset, os, rpc) => PreadStep(s, fd, nbyte, offset, os, rpc)
    case FlockOp(fd, operation, os, rpc) => FlockStep(s, fd, operation, os, rpc)
    case FcntlOp(fd, cmd, arg, os, rpc) => FcntlStep(s, fd, cmd, arg, os, rpc)
    case LseekOp(fd, offset, whence, os, rpc) => LseekStep(s, fd, offset, whence, os, rpc)
    case FsyncOp(fd, os, rpc) => FsyncStep(s, fd, os, rpc)
    case StatOp(path, os) => StatStep(s, path, os)
  }

  /** The globals after the calls of `ops`, in order. */
  function Run(s: State, ops: seq<Op>): State
    decreases |ops|
  {
    if ops == [] then s else Run(Exec(s, ops[0]).post, ops[1..])
  }

  /** No sequence of calls removes or redirects an association, or replaces the placeholder. */
  lemma {:induction false} RunGrows(s: State, ops: seq<Op>)
    ensures Grows(s, Run(s, ops))
    decreases |ops|
  {
    if ops != [] {
      RunGrows(Exec(s, ops[0]).post, ops[1..]);
    }
  }

  /** The table never holds more than the placeholder's association. */
  lemma {:induction false} RunKeepsOneAssociation(s: State, ops: seq<Op>)
    requires OneAssociation(s)
    ensures OneAssociation(Run(s, ops))
    decreases |ops|
  {
    if ops != [] {
      RunKeepsOneAssociation(Exec(s, ops[0]).post, ops[1..]);
    }
  }

  /** However many files a process opens remotely, at most one of them is reachable. */
  lemma AtMostOneAssociation(errno: int, ops: seq<Op>)
    ensures |Run(Initial(errno), ops).fdMap| <= 1
  {
    RunKeepsOneAssociation(Initial(errno), ops);
    var s := Run(Initial(errno), ops);
    if s.fdMap != map[] {
      var f := s.fakefd.value;
      assert s.fdMap.Keys == {f};
    }
  }

  /**
   * Two successful remote opens with any calls between them return the same
   * local descriptor, and the second leaves the table as it was: the local
   * descriptor still reaches whatever the first open made it reach, never
   * the file the second open asked for.
   */
  lemma PlaceholderReused(s: State, first: Op, ops: seq<Op>, second: Op)
    requires RemoteOpenSucceeds(first) && RemoteOpenSucceeds(second)
    ensures var t1 := Exec(s, first);
            var mid := Run(t1.post, ops);
            var t2 := Exec(mid, second);
            && t2.ret == t1.ret
            && t2.post.fdMap == mid.fdMap
            && t2.ret in t2.post.fdMap
            && t2.post.fdMap[t2.ret] == t1.post.fdMap[t1.ret]
  {
    RunGrows(Exec(s, first).post, ops);
  }

  /**
   * From the start of a process, the first successful remote open's remote
   * descriptor is the one every later successful remote open's local
   * descriptor reaches.
   */
  lemma FirstRemoteFdWins(errno: int, first: Op, ops: seq<Op>, second: Op)
    requires RemoteOpenSucceeds(first) && RemoteOpenSucceeds(second)
    ensures var t1 := Exec(Initial(errno), first);
            var t2 := Exec(Run(t1.post, ops), second);
            var reply := first.openRpc(OpenRequest(first.path, first.oflag, OpenMode(first.oflag, first.modeArg))).reply;
            t2.ret in t2.post.fdMap && t2.post.fdMap[t2.ret] == reply.fd
  {
    PlaceholderReused(Initial(errno), first, ops, second);
  }

  /**
   * close on an associated descriptor returns 0 and keeps the association,
   * so after any further calls the descriptor still reaches the same remote
   * descriptor.
   */
  lemma CloseKeepsRouting(s: State, fd: int, os: Os, ops: seq<Op>)
    requires fd in s.fdMap
    ensures var closed := CloseStep(s, fd, os);
            var later := Run(closed.post, ops);
            && closed.ret == 0
            && fd in later.fdMap
            && later.fdMap[fd] == s.fdMap[fd]
  {
    RunGrows(CloseStep(s, fd, os).post, ops);
  }

  /**
   * When the local `<path>.fake` open fails, the first successful remote open
   * returns -1 to its caller with that open's errno, yet records -1 as the
   * placeholder and associates it with the server's descriptor. From then on
   * close(-1) returns 0 and every later successful remote open returns -1.
   */
  lemma FailedPlaceholderOpen(errno: int, first: Op, ops: seq<Op>, later: Op, os: Os)
    requires RemoteOpenSucceeds(first)
    requires first.os(SysOpen(first.path + FAKE_SUFFIX, FAKE_FLAGS, FAKE_MODE)).ret == -1
    ensures var t1 := Exec(Initial(errno), first);
            var reply := first.openRpc(OpenRequest(first.path, first.oflag, OpenMode(first.oflag, first.modeArg))).reply;
            && t1.ret == -1
            && t1.post.errno == first.os(SysOpen(first.path + FAKE_SUFFIX, FAKE_FLAGS, FAKE_MODE)).errno
            && t1.post.fakefd == Some(-1)
            && t1.post.fdMap == map[-1 := reply.fd]
    ensures var mid := Run(Exec(Initial(errno), first).post, ops);
            && -1 in mid.fdMap
            && CloseStep(mid, -1, os).ret == 0
            && (RemoteOpenSucceeds(later) ==> Exec(mid, later).ret == -1)
  {
    RunGrows(Exec(Initial(errno), first).post, ops);
  }

  /** Without a remote open, the table stays empty, so every call is passed to the real one. */
  lemma {:induction false} LocalTraceNeverAssociates(s: State, ops: seq<Op>)
    requires s.fdMap == map[]
    requires forall i :: 0 <= i < |ops| ==> !IsRemoteOpen(ops[i])
    ensures Run(s, ops).fdMap == map[]
    decreases |ops|
  {
    if ops != [] {
      assert !IsRemoteOpen(ops[0]);
      LocalTraceNeverAssociates(Exec(s, ops[0]).post, ops[1..]);
    }
  }
}
