/**
 * The request and reply messages exchanged between the client and the
 * server, one pair per operation. A message field the sender never sets
 * reads as 0 (or as empty); `lk` is the one field whose presence is tested.
 */
module Wire {
  import opened Common

  datatype OpenRequest = OpenRequest(path: string, oflag: int, mode: int)
  datatype OpenResponse = OpenResponse(fd: int, err: int)

  datatype WriteRequest = WriteRequest(fd: int, buf: seq<byte>, offset: int)
  datatype WriteResponse = WriteResponse(numwritten: int, err: int)

  datatype ReadRequest = ReadRequest(fd: int, nbyte: nat, offset: int)
  datatype ReadResponse = ReadResponse(buf: seq<byte>, err: int)

  datatype FlockRequest = FlockRequest(fd: int, operation: int)

  datatype FcntlFlock = FcntlFlock(lType: int, lWhence: int, lStart: int, lLen: int, lPid: int)
  datatype FcntlRequest = FcntlRequest(fd: int, cmd: int, descriptorFlags: int, lk: Option<FcntlFlock>)

  datatype LseekRequest = LseekRequest(fd: int, offset: int, whence: int)
  datatype LseekResponse = LseekResponse(offset: int, err: int)

  datatype FsyncRequest = FsyncRequest(fd: int)

  /** The reply of flock, fcntl and fsync: an error code only. */
  datatype ErrnoResponse = ErrnoResponse(err: int)

  /** What a client stub call yields: the reply, or a failed status with no usable reply. */
  datatype RpcResult<+R> = Delivered(reply: R) | TransportFailure

  // The remote procedures, as seen from the client: each answers a request.
  type OpenRpc = OpenRequest -> RpcResult<OpenResponse>
  type WriteRpc = WriteRequest -> RpcResult<WriteResponse>
  type ReadRpc = ReadRequest -> RpcResult<ReadResponse>
  type FlockRpc = FlockRequest -> RpcResult<ErrnoResponse>
  type FcntlRpc = FcntlRequest -> RpcResult<ErrnoResponse>
  type LseekRpc = LseekRequest -> RpcResult<LseekResponse>
  type FsyncRpc = FsyncRequest -> RpcResult<ErrnoResponse>
}
