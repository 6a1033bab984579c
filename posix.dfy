/**
 * The slice of the POSIX file interface that both sides of the shim call.
 * The operating system itself is not modelled: an `Os` answers each call
 * with some outcome, so every property proved about the shim holds whatever
 * the file system does.
 */
module Posix {
  import opened Common

  // Values from the Linux (x86-64) headers.
  const O_WRONLY: int := 0x1
  const O_CREAT: int := 0x40
  const F_GETFL: int := 3
  const F_SETFL: int := 4
  const F_GETLK: int := 5
  const F_SETLK: int := 6
  const F_SETLKW: int := 7

  /** The record-lock commands of fcntl. */
  predicate IsLockCmd(cmd: int) {
    cmd == F_GETLK || cmd == F_SETLK || cmd == F_SETLKW
  }

  /** The descriptor-flag commands of fcntl. */
  predicate IsFlagsCmd(cmd: int) {
    cmd == F_SETFL || cmd == F_GETFL
  }

  /** `struct flock`, the record lock that the lock commands of fcntl read or fill in. */
  datatype FlockStruct = FlockStruct(lType: int, lWhence: int, lStart: int, lLen: int, lPid: int)

  /** The third argument of fcntl. */
  datatype FcntlArg =
    | Word(word: int)           // an integer passed through as is (a flag word, or whatever the caller passed)
    | Lock(lock: FlockStruct)   // the address of a `struct flock` holding these fields
    | Scratch                   // the address of an uninitialised scratch buffer

  /** One call into the real file API, with the arguments it receives. */
  datatype SysCall =
    | SysOpen(path: string, oflag: int, mode: int)
    | SysClose(fd: int)
    | SysPwrite(fd: int, buf: seq<byte>, offset: int)
    | SysPread(fd: int, nbyte: nat, offset: int)
    | SysFlock(fd: int, operation: int)
    | SysFcntl(fd: int, cmd: int, arg: FcntlArg)
    | SysLseek(fd: int, offset: int, whence: int)
    | SysFsync(fd: int)
    | SysStat(path: string)

  /**
   * What a call returned, and the value `errno` holds right after it.
   * `data` is what a read placed at the front of the caller's buffer; every
   * other call leaves it empty.
   */
  datatype Outcome = Outcome(ret: int, errno: int, data: seq<byte>)

  /** pread's promise: it stays within the buffer and returns -1 or the count it placed there. */
  predicate ReadFits(nbyte: nat, out: Outcome) {
    |out.data| <= nbyte && (out.ret == -1 || out.ret == |out.data|)
  }

  /** The operating system as seen by one call site: any answer to any call, as long as pread keeps its promise. */
  type Os = os: SysCall -> Outcome | forall c: SysCall :: c.SysPread? ==> ReadFits(c.nbyte, os(c))
    witness (c: SysCall) => Outcome(-1, 0, [])
}
