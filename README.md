# Remote-file shim: a Dafny model

The shim moves a process's file I/O to a server. On the client, an
interposed copy of `open`, `close`, `pwrite`, `pread`, `flock`, `fcntl`,
`lseek`, `fsync` and `stat` decides per call whether to run the real call
or to forward it over RPC. `open` decides by the path prefix `./test/`.
Every descriptor-taking call decides by looking the descriptor up in the
global table `fdMap`, which maps a local descriptor to a remote one. A
successful remote open keys its association by a placeholder local
descriptor. The placeholder is the descriptor returned by opening
`<path>.fake` locally on the first successful remote open, -1 if that open
fails; it is reused from then on. On the server, each handler makes one
real call and builds its reply from the call's result and `errno`.

The model covers both sides as the code is written:

- `Common`, `Posix`, `Wire`: bytes, the POSIX calls used, and the request and reply messages.
- `GreeterServer`: each handler as a pure function of the request and the server's operating system.
- `GreeterClient`: the client's globals as a `State` value, and one step function per entry point. A step function gives the new state and the return value.
- `Interposer`: a `Shim` class whose fields are the client's globals. Its methods update them in place as the entry points do. Each method is proved equal to its step function.
- `Traces`: sequences of calls, with inductive lemmas about every reachable state.
- `EndToEnd`: the client's remote path composed with the server's handlers.

The real operating system is an `Os`: any function from a call to its
outcome. An outcome is the return value, `errno` right after the call, and
the bytes a read placed in the buffer. Its only constraint is pread's
promise: it writes no more than was asked, and returns -1 or the count
written. A remote procedure is any function from a request to a delivered
reply or a transport failure. So every result holds whatever the file
system and the network do.

Where the documented design and the code disagree, the model follows the code:

- Remote opens share one placeholder descriptor. `Traces.AtMostOneAssociation` shows the table never holds more than one association. `Traces.PlaceholderReused` shows later remote opens return the same descriptor and cannot reach their own file.
- `close` never removes an association (`Traces.CloseKeepsRouting`).
- The server's open reply always has `err = 0`. So a failed remote open returns -1 and leaves `errno` alone (`EndToEnd.FailedRemoteOpenLosesErrno`).
- A failed remote pread returns 0, not -1 (`EndToEnd.RemotePread`).
- Record-lock `fcntl` commands on a remote descriptor run the real `fcntl` on the local placeholder (`EndToEnd.RecordLocksStayLocal`).
- F_GETFL returns 0 rather than the flags (`EndToEnd.RemoteFcntlFlags`).
- Every other non-lock `fcntl` command (F_GETFD, F_SETFD, F_DUPFD, ...) on a remote descriptor drops the caller's argument. The server's `fcntl` gets the address of its scratch buffer, and the client returns 0 on success rather than the call's result (`EndToEnd.RemoteFcntlOther`).
- When the local `<path>.fake` open fails, a remote open that succeeded on the server returns -1 with that open's errno. The table still gains the entry -1 → remote descriptor. From then on, `close(-1)` returns 0, calls on -1 are forwarded, and every later successful remote open returns -1 (`Traces.FailedPlaceholderOpen`).

## Model

| member | source | states |
|---|---|---|
| `GreeterServer.Open` | greeter_server.cc:63-76 | the reply carries the descriptor the server's open returned and always has err 0, even when the open failed |
| `GreeterServer.Pwrite` | greeter_server.cc:78-91 | numwritten is the pwrite result; err is the server's errno exactly when that result is -1, else 0 |
| `GreeterServer.Pread` | greeter_server.cc:93-106 | the reply's bytes never exceed the requested count; on success they are exactly the bytes read; on failure they are empty and err is errno |
| `GreeterServer.Flock` | greeter_server.cc:108-117 | err is errno exactly when flock returned -1, otherwise the default 0 |
| `GreeterServer.Fcntl` | greeter_server.cc:119-148 | flag commands pass descriptor_flags to fcntl; lock commands copy the five lock fields unchanged, and abort when no lock is present; other commands pass the scratch buffer; err is errno exactly when fcntl returned -1 |
| `GreeterServer.Lseek` | greeter_server.cc:150-158 | offset is always the lseek result, -1 included; err is errno exactly when that result is -1 |
| `GreeterServer.Fsync` | greeter_server.cc:160-166 | err is errno exactly when fsync returned -1, otherwise 0 |
| `GreeterClient.ErrnoStep` | greeter_client.cc:228-236 | the remote tail of flock/fcntl/fsync returns -1 exactly on a transport failure or a nonzero err, else 0; errno changes only to a nonzero err; the table is untouched |
| `GreeterClient.OpenStep` | greeter_client.cc:73-129 | a path without the "./test/" prefix (shorter paths included) goes to the real open and the table and placeholder are unchanged; the mode sent is 0 unless O_CREAT is set; a transport failure returns -1 with errno unchanged; a reply fd of -1 returns -1, table and placeholder unchanged, errno set only from a nonzero err; a success mints the placeholder only when none exists, returns it, and inserts without overwriting an existing entry; associations only grow |
| `GreeterClient.CloseStep` | greeter_client.cc:131-145 | an unknown descriptor goes to the real close; an associated one returns 0 and the table keeps its association |
| `GreeterClient.PwriteStep` | greeter_client.cc:147-174 | an unknown descriptor goes to the real pwrite with the table unchanged; an associated one sends the remote descriptor, the bytes and the offset, returns -1 on transport failure with errno untouched, and otherwise returns numwritten, installing a nonzero err |
| `GreeterClient.PreadStep` | greeter_client.cc:176-206 | an unknown descriptor goes to the real pread; an associated one sends the remote descriptor, count and offset, returns -1 on transport failure, and otherwise returns the reply's byte count, installing a nonzero err |
| `GreeterClient.FlockStep` | greeter_client.cc:208-237 | an unknown descriptor goes to the real flock; an associated one forwards the remote descriptor and operation and follows the error-only reply contract |
| `GreeterClient.FcntlStep` | greeter_client.cc:239-290 | an unknown descriptor goes to the real fcntl; on an associated one, lock commands call the real fcntl on the local descriptor; flag commands forward the argument as descriptor_flags; other commands forward flags 0; the forwarded ones follow the error-only reply contract |
| `GreeterClient.LseekStep` | greeter_client.cc:292-320 | an unknown descriptor goes to the real lseek; an associated one returns -1 on transport failure, otherwise the reply's offset, installing a nonzero err |
| `GreeterClient.FsyncStep` | greeter_client.cc:322-350 | an unknown descriptor goes to the real fsync; an associated one forwards the remote descriptor and follows the error-only reply contract |
| `Traces.Exec` | greeter_client.cc:118-124 | every intercepted call keeps existing associations and the placeholder; only a remote open can change the table or the placeholder |
| `Traces.RunGrows` | greeter_client.cc:118-124 | over any sequence of calls, no association is removed or redirected and the placeholder is never replaced |
| `Traces.RunKeepsOneAssociation` | greeter_client.cc:118-124 | over any sequence of calls, the table holds at most the placeholder's association |
| `Traces.AtMostOneAssociation` | greeter_client.cc:118-124 | from process start, the table never has more than one entry |
| `Traces.PlaceholderReused` | greeter_client.cc:118-124 | two successful remote opens separated by any calls return the same local descriptor; the second leaves the table unchanged, and the descriptor still reaches what the first made it reach |
| `Traces.FirstRemoteFdWins` | greeter_client.cc:118-124 | from process start, every later successful remote open reaches the remote descriptor of the first one |
| `Traces.CloseKeepsRouting` | greeter_client.cc:138-144 | close on an associated descriptor returns 0, and after any further calls it still maps to the same remote descriptor |
| `Traces.FailedPlaceholderOpen` | greeter_client.cc:118-124 | when the local `.fake` open fails, the first successful remote open returns -1 with that open's errno, records -1 as placeholder mapped to the server's descriptor; afterwards close(-1) returns 0 and later successful remote opens return -1 |
| `Traces.LocalTraceNeverAssociates` | greeter_client.cc:88-89 | with no remote-classified open, the table stays empty, so every call goes to the real one |
| `EndToEnd.FailedRemoteOpenLosesErrno` | greeter_server.cc:67-72 | a remote open that fails on the server returns -1 to the client with errno unchanged |
| `EndToEnd.FirstRemoteOpenAssociates` | greeter_client.cc:110-124 | a successful first remote open returns whatever the local `<path>.fake` open returned (-1 included), associated with the server's descriptor |
| `EndToEnd.RemotePwrite` | greeter_server.cc:83-89 | remote pwrite returns the server's count, and the server's errno reaches the client exactly when that count is -1 |
| `EndToEnd.RemotePread` | greeter_server.cc:97-103 | the bytes copied never exceed the caller's count; a successful remote pread returns the server's count and bytes; a failed one returns 0 with the server's errno and copies nothing |
| `EndToEnd.RemoteFlock` | greeter_server.cc:112-114 | remote flock returns -1 with the server's errno exactly when the server's flock failed, else 0 |
| `EndToEnd.RemoteFsync` | greeter_server.cc:162-164 | remote fsync returns -1 with the server's errno exactly when the server's fsync failed, else 0 |
| `EndToEnd.RemoteFcntlFlags` | greeter_client.cc:273-289 | F_GETFL/F_SETFL reach the server's fcntl with the caller's word and return 0 on success, not the flags |
| `EndToEnd.RemoteFcntlOther` | greeter_client.cc:273-289 | non-lock, non-flag fcntl commands reach the server's fcntl with its scratch buffer instead of the caller's argument, and return 0 on success rather than the call's result |
| `EndToEnd.RecordLocksStayLocal` | greeter_client.cc:261-262 | lock commands on an associated descriptor give the same result whatever the server would answer: the real fcntl's on the local descriptor |
| `EndToEnd.RemoteLseek` | greeter_server.cc:152-155 | remote lseek returns the server's resulting offset, with the server's errno when it is -1 |
| `Interposer.Shim.constructor` | greeter_client.cc:45-61 | the globals start with an empty table, no placeholder and no stub |
| `Interposer.Shim.Open` | greeter_client.cc:73-129 | updates the globals in place exactly as OpenStep says and returns its value |
| `Interposer.Shim.Close` | greeter_client.cc:131-145 | as CloseStep |
| `Interposer.Shim.Pwrite` | greeter_client.cc:147-174 | as PwriteStep |
| `Interposer.Shim.Pread` | greeter_client.cc:176-206 | as PreadStep; the caller's buffer gets the real call's or the reply's bytes at its front and is otherwise unchanged |
| `Interposer.Shim.Flock` | greeter_client.cc:208-237 | as FlockStep |
| `Interposer.Shim.Fcntl` | greeter_client.cc:239-290 | as FcntlStep |
| `Interposer.Shim.Lseek` | greeter_client.cc:292-320 | as LseekStep |
| `Interposer.Shim.Fsync` | greeter_client.cc:322-350 | as FsyncStep |
| `Interposer.Shim.Stat` | greeter_client.cc:353-362 | stat always goes to the real call; only errno changes |
| `Interposer.Shim.ReplyErrno` | greeter_client.cc:340-349 | the error-only reply contract, as ErrnoStep |
| `Interposer.Memcpy` | greeter_client.cc:204 | copies the bytes to the front of the buffer and leaves the rest as it was |

## Left out

- Symbol interposition through `dlsym(RTLD_NEXT, …)` and the cached function pointers: a dynamic-linker mechanism. The real calls are the `Os` parameter.
- Stub and channel creation (`create_stub`) and its abort on failure: network set-up. The model records only whether the stub exists. The RPCs are parameters.
- The variadic arguments of `open` and `fcntl` are explicit parameters (`modeArg`, `nextreg`). The undefined read of a missing `fcntl` argument is not modelled.
- The semantics of the real file calls, on both sides: operating-system behaviour, apart from pread's bound.
- Integer widths: descriptors, offsets, counts and message fields are unbounded integers. Truncation between `size_t`, `ssize_t`, `off_t`, the message field types and `short` lock fields is not modelled, because the message schema is not part of this model.
- Constants are the Linux x86-64 values (O_CREAT 0x40, F_GETFL 3, F_SETFL 4, F_GETLK 5, F_SETLK 6, F_SETLKW 7).
- Paths are the characters before the terminating NUL. `<path>.fake` is built the same way.
- `Interposer.Shim.Pread`: the caller's buffer length is the count asked for. The copy of the reply requires the reply to fit the buffer. The client does not check this; `EndToEnd.RemotePread` proves this server always meets it.
- `GreeterServer.Fcntl`: with assertions compiled out, a lock command without a lock would run with zeroed lock fields. The model takes the assertion as enabled and aborts.
- All logging (`fprintf`, `perror`, `std::cout`). `perror` does not change `errno`.
- `RunServer` and `main`: server bootstrap.
- The disabled lock-marshalling block in the client's `fcntl`.
- Concurrency: the code has no synchronisation, so the model is single-threaded.
