# go-msuite, modelled in Dafny

go-msuite is a Go toolkit for building microservices. A service built with it
gets a dependency-injected node with these parts:
- a JSON configuration;
- a file-system repository with mounted datastores;
- gRPC servers and listeners multiplexed over TCP and libp2p;
- JWT and ACL authentication middlewares;
- a diagnostics status manager;
- a pub-sub events service and its RPC wrapper;
- key/value stores (BoltDB, Redis);
- distributed lockers (in-memory, Redis, ZooKeeper);
- a connection pool;
- a libp2p peer "mesher";
- a length-prefixed protocol framing layer.

This project models the logic of those parts and proves properties about it.
- One Dafny module per core Go file.
- `Wrappers` holds the shared `Option`/`Result` types and Go's `%d` formatting.
- `JsonConf` holds the configuration value model the other modules read.
- Code that works on values is modelled as datatypes, functions and lemmas.
- Objects whose fields the Go code updates are modelled as classes:
  - the status manager, the muxes, the pool, the repo, the event handler tables;
  - the fake redis server and the bolt store.
  Their methods state the whole new state, usually as a value-level
  specification function of the old state. Lemmas then prove the promised
  properties about those functions.
- Anything the code cannot see is a parameter of the model. This covers:
  - the network and the outcome of a dial;
  - the scheduler's answer;
  - the result of a JWT parse;
  - the outcome of a goroutine race;
  - the order in which Go iterates a map.

## Model

| member | source | states |
|---|---|---|
| Protocols.Uint16 | modules/protocols/protocols.go:175 | the uint16 conversion of a length is below 65536 and leaves lengths below 65536 unchanged |
| Protocols.PutUint16LE | modules/protocols/protocols.go:174-175 | the two little-endian length bytes decode back to the value |
| Protocols.Frame | modules/protocols/protocols.go:168-184 | a frame is two length bytes holding the truncated payload length, then the payload |
| Protocols.ReadOnce | modules/protocols/protocols.go:144 | one Read returns at most the buffer's size, consumes exactly what it returns, and fails with EOF only on an exhausted stream |
| Protocols.ReadFull | modules/protocols/protocols.go:152 | io.ReadFull succeeds exactly when enough bytes remain, returning the next n bytes; otherwise EOF or unexpected EOF |
| Protocols.ReadFrameAsWritten | modules/protocols/protocols.go:142-158 | ReadMsg as written fails with EOF on an exhausted stream; when the first chunk holds both length bytes, it succeeds exactly when the stream holds the 2 + length bytes, handing over the next length bytes and leaving the rest |
| Protocols.WholeLengthRead | modules/protocols/protocols.go:143-152 | a single Read that returns both length bytes leaves the stream just after them, so the payload read starts at byte 2 |
| Protocols.ReadFrame | modules/protocols/protocols.go:142-158 | ReadMsg with a full length read fails when fewer than two bytes remain |
| Protocols.ReadFullSplit | modules/protocols/protocols.go:152 | ReadFull of a stream a + b for as many bytes as a holds returns a and leaves b |
| Protocols.AsWrittenAgreesOnWholeLength | modules/protocols/protocols.go:143-149 | when the first chunk holds both length bytes, the single-Read decoding equals the full one |
| Protocols.ReadFrameOfFrame | modules/protocols/protocols.go:142-184 | reading a frame hands Unmarshal the first uint16(len) payload bytes and leaves the rest |
| Protocols.RoundTrip | modules/protocols/protocols.go:142-184 | a payload of at most 65535 bytes written as a frame reads back unchanged, leaving what follows |
| Protocols.TruncatedFrameMisread | modules/protocols/protocols.go:175 | a 65536-byte payload is framed with length 0: the reader hands over nothing and leaves the payload unread |
| Protocols.ShortLengthReadMisframes | modules/protocols/protocols.go:143-152 | with the length split over two reads, the single-Read decoder reads length 3 from one byte and hands over [0,7,8] instead of [7,8,9] |
| Protocols.WriteMsgAsWritten | modules/protocols/protocols.go:168-184 | a Marshal error is returned with nothing written; otherwise the truncated frame is written in two writes |
| Protocols.WriteMsgAsWrittenOk | modules/protocols/protocols.go:174-183 | on a stream taking no write, one write or two, the truncating writer fails at the length, fails at the payload, or writes the whole frame |
| Protocols.WritersAgreeInRange | modules/protocols/protocols.go:168-184 | for payloads of at most 65535 bytes the truncating writer and the checked one write the same bytes and return the same error |
| Protocols.WriteMsgSpec | modules/protocols/protocols.go:168-184 | the checked writer succeeds exactly for a marshalled payload of at most 65535 bytes on a stream taking two writes, writes a prefix of the frame, and writes nothing on a Marshal error |
| Protocols.WrittenFrameReadsBack | modules/protocols/protocols.go:142-184 | every frame the checked writer completes reads back as the marshalled payload |
| Protocols.AsWrittenFrameDoesNotReadBack | modules/protocols/protocols.go:175 | the truncating writer completes a write of a 65536-byte payload that does not read back |
| Protocols.ServeSpec | modules/protocols/protocols.go:70-98 | the stream handler, on the code as written, resets after a read error with nothing written, and writes a response only after the request was read, unmarshalled and handled without error |
| Protocols.ServeHandled | modules/protocols/protocols.go:85-97 | a handler error resets with nothing written; the response counts as sent exactly when handling and Marshal succeed and the stream takes both writes, and then the written bytes are the truncated frame |
| Protocols.ServeSpecAfterRead | modules/protocols/protocols.go:78-85 | the handler's outcome depends on the request only through what ReadMsg returned |
| Protocols.OversizedResponseMisframed | modules/protocols/protocols.go:92-97 | a 65536-byte response is sent without a reset, yet its frame reads back as an empty response |
| Protocols.SendSpec | modules/protocols/protocols.go:104-132 | SendMsg writes the request with the truncating writer first; a write failure is returned with no read; otherwise the result is ReadMsg as written of the response |
| Protocols.EchoExchange | modules/protocols/protocols.go:69-132 | with an echoing handler and a round-tripping codec, and when each side's first read delivers both length bytes, the sender gets back the message it sent and the handler responds |
| Protocols.Stream.SetDeadline | modules/protocols/protocols.go:17-113 | each stream's deadline is 15 seconds from now |
| Protocols.Stream.Read | modules/protocols/protocols.go:144 | a Read consumes what ReadOnce delivers, or fails with EOF leaving the stream |
| Protocols.Stream.ReadFullFrom | modules/protocols/protocols.go:152 | the loop of reads returns the next n bytes exactly when they are there |
| Protocols.Stream.ReadMsg | modules/protocols/protocols.go:142-158 | ReadMsg as written (one Read of at most two length bytes, then io.ReadFull) returns the read error or Unmarshal of the payload ReadFrameAsWritten finds, leaving exactly what follows it |
| Protocols.Stream.Write | modules/protocols/protocols.go:177-182 | a write appends the buffer, or fails once the stream is broken |
| Protocols.Stream.WriteMsg | modules/protocols/protocols.go:168-184 | the bytes sent, the writes used and the error are those of the truncating writer as written |
| Protocols.Stream.Reset | modules/protocols/protocols.go:80-94 | a reset leaves the stream reset |
| Protocols.Stream.Close | modules/protocols/protocols.go:111 | a close leaves the stream closed |
| Protocols.Serve | modules/protocols/protocols.go:70-98 | serving sets the deadline, sends what ServeSpec (as written) says, and resets the stream exactly on failure |
| Protocols.Respond | modules/protocols/protocols.go:85-97 | handling the decoded request and writing the response move the stream as ServeHandled says, resetting it exactly on failure |
| Protocols.SendMsg | modules/protocols/protocols.go:104-132 | a NewStream error is returned; otherwise the stream gets the deadline, the exchange follows SendSpec as written, the stream is closed, and nothing is read after a failed write |
| Protocols.Host.Register | modules/protocols/protocols.go:69-102 | registering installs the handler under the protocol's ID and gives the protocol a sender |
| Protocols.Host.HandleIncoming | modules/protocols/protocols.go:70 | an inbound stream is served by the handler registered under its protocol ID, and ignored without one |
| GrpcMux.TaskName | modules/grpc/mux/mux.go:146-148 | a listener task is named "MuxListener_" followed by its tag |
| GrpcMux.Tags | modules/grpc/mux/mux.go:48-71 | the tags, one per listener in order |
| GrpcMux.InitialStatus | modules/grpc/mux/mux.go:46-50 | New reports every listener's tag, and only those, as "not running" |
| GrpcMux.FirstCancel | modules/grpc/mux/mux.go:87-92 | the index at which Start's context first ends, before which no listener was cancelled |
| GrpcMux.StartStatusAt | modules/grpc/mux/mux.go:68-94 | after Start, each listener before the first cancellation reports "running" or "failed to start err: ..."; the others keep their earlier status |
| GrpcMux.StartStatusKeeps | modules/grpc/mux/mux.go:68-94 | Start changes no status entry other than its listeners' tags |
| GrpcMux.AllRunning | modules/grpc/mux/mux.go:87-89 | when every task is scheduled, every listener reports "running" |
| GrpcMux.Spawned | modules/grpc/mux/mux.go:79-82 | Start spawns at most one worker per listener |
| GrpcMux.SpawnedRange | modules/grpc/mux/mux.go:79-82 | every spawned worker serves one of the listeners Start looked at and starts accepting |
| GrpcMux.Refused | modules/grpc/mux/mux.go:83-86 | the count of listeners whose task GoFunc refused, at most one each |
| GrpcMux.Live | modules/grpc/mux/mux.go:80 | the number of workers that have not exited, at most the number of workers |
| GrpcMux.LiveAppend | modules/grpc/mux/mux.go:80 | the live workers of two groups add up |
| GrpcMux.LiveSpawned | modules/grpc/mux/mux.go:78-82 | every worker Start spawns is live |
| GrpcMux.LiveUpdate | modules/grpc/mux/mux.go:80 | replacing one worker changes the live count by exactly that worker's change |
| GrpcMux.Errors | modules/grpc/mux/mux.go:115-121 | the listener close errors, in order; none when every close succeeded |
| GrpcMux.ErrorsSnoc | modules/grpc/mux/mux.go:116-121 | collecting one more close result appends its error, if any |
| GrpcMux.Mux.constructor | modules/grpc/mux/mux.go:34-52 | a new mux has no workers, an empty queue, a zero WaitGroup and every tag "not running" |
| GrpcMux.Mux.Status | modules/grpc/mux/mux.go:61-66 | Status returns the current status map |
| GrpcMux.Mux.Addr | modules/grpc/mux/mux.go:132-137 | the first listener's address, or 0.0.0.0:0 without listeners |
| GrpcMux.Mux.Start | modules/grpc/mux/mux.go:68-94 | corrected Start: statuses as StartStatus, the spawned workers added, the WaitGroup equal to the live workers (no leaked addition) |
| GrpcMux.Mux.StartAsWritten | modules/grpc/mux/mux.go:68-94 | Start as written: every refused task leaves one WaitGroup addition nobody marks done |
| GrpcMux.Mux.StartLoop | modules/grpc/mux/mux.go:68-94 | the Start loop, with wg.Add before or after GoFunc: statuses as StartStatus, the spawned workers added, and one leaked WaitGroup addition per refused task only when the addition comes first |
| GrpcMux.Mux.WorkerAccept | modules/grpc/mux/mux.go:150-157 | an accepting worker either holds the new connection or, on an Accept error, reports "failed with err: ..." and exits, marking the WaitGroup done |
| GrpcMux.Mux.WorkerDeliver | modules/grpc/mux/mux.go:158-164 | a holding worker enqueues its connection when the queue has room, or exits on cancellation; with neither it blocks |
| GrpcMux.Mux.CancelTasks | modules/grpc/mux/mux.go:159 | the TaskManager's context is cancelled |
| GrpcMux.Mux.Accept | modules/grpc/mux/mux.go:96-105 | Accept returns EOF once the mux is cancelled, otherwise the oldest queued connection, and blocks on an empty queue |
| GrpcMux.Mux.BeginClose | modules/grpc/mux/mux.go:107-121 | Close cancels the mux, closes every listener and collects their errors |
| GrpcMux.Mux.FinishClose | modules/grpc/mux/mux.go:123-129 | Close adds "failed to stop listeners" exactly when the WaitGroup is not zero, so always when an addition leaked |
| Status.DeltaOf | modules/diag/status/status.go:22-39 | a string status replaces the old one; a map status keeps its own entries and gains the old map's entries it lacks |
| Status.MapDelta | modules/diag/status/status.go:28-39 | the loop over the old map yields exactly DeltaOf of the two statuses |
| Status.LastWith | modules/diag/status/status.go:57-67 | the last report in a sequence that mentions a key, if any |
| Status.AccumulateLastWins | modules/diag/status/status.go:57-67 | after successive map reports, a key is present iff some report mentions it, with the value of the last report that does |
| Status.ReportMapsAccumulates | modules/diag/status/status.go:57-67 | a run of map reports under one key leaves the merge of all of them |
| Status.AfterReport | modules/diag/status/status.go:57-67 | Report stores a new key's status as given, merges a known key's status with DeltaOf, and leaves other keys alone |
| Status.Manager.constructor | modules/diag/status/status.go:46-55 | a new manager holds no reports |
| Status.Manager.Report | modules/diag/status/status.go:57-67 | the stored reports become AfterReport of the old ones |
| Status.Manager.Status | modules/diag/status/status.go:69-77 | every reported key with its status, plus the "Task Manager" entry holding the TaskManager's status |
| TransportMux.AllTags | modules/grpc/transport/mux/mux.go:63-75 | a map giving every listener tag the same text |
| TransportMux.FailureReport | modules/grpc/transport/mux/mux.go:56-58 | a failure report maps just the failing tag to "Failed Err:" and the error |
| TransportMux.ReportedTag | modules/grpc/transport/mux/mux.go:91-100 | each reportErr closure reads the shared range variable after the loop, so it names the last listener's tag |
| TransportMux.FailureUnderLastTag | modules/grpc/transport/mux/mux.go:91-100 | a failure of an earlier listener leaves that listener's status as it was and marks the last listener failed |
| TransportMux.StartWorkers | modules/grpc/transport/mux/mux.go:91-103 | start spawns one accepting worker per listener, in order |
| TransportMux.FirstError | modules/grpc/transport/mux/mux.go:116-131 | Close returns nil iff every listener closed cleanly, otherwise the first error in listener order |
| TransportMux.FirstErrorSnoc | modules/grpc/transport/mux/mux.go:119-124 | one more close result changes the first error only when there was none yet |
| TransportMux.FailureKeepsOthers | modules/grpc/transport/mux/mux.go:55-62 | a failure report sets the failing tag and keeps every other listener's reported status |
| TransportMux.StopReportsAllStopped | modules/grpc/transport/mux/mux.go:72-79 | after OnStop every listener tag reports "Stopped" |
| TransportMux.Mux.constructor | modules/grpc/transport/mux/mux.go:43-69 | NewMuxedListener starts one worker per listener with an empty queue and, with a status manager, reports every tag "Running" |
| TransportMux.Mux.Addr | modules/grpc/transport/mux/mux.go:133-138 | the first listener's address, or 0.0.0.0:0 without listeners |
| TransportMux.Mux.WorkerAccept | modules/grpc/transport/mux/mux.go:91-103 | an accepting worker holds the new connection, or on an error reports the failure under "RPC Listeners", keyed by the last listener's tag, and exits |
| TransportMux.Mux.WorkerDeliver | modules/grpc/transport/mux/mux.go:159-165 | a holding worker enqueues its connection when the queue has room, or exits on cancellation |
| TransportMux.Mux.CancelTasks | modules/grpc/transport/mux/mux.go:160 | the TaskManager's context is cancelled |
| TransportMux.Mux.Accept | modules/grpc/transport/mux/mux.go:105-114 | EOF once the mux is cancelled, otherwise the oldest queued connection; blocks on an empty queue |
| TransportMux.Mux.Close | modules/grpc/transport/mux/mux.go:116-131 | Close closes every listener, cancels the mux and returns the first close error |
| TransportMux.Mux.OnStop | modules/grpc/transport/mux/mux.go:70-87 | the stop hook closes the mux, always returns nil and reports every tag "Stopped" |
| AclManager.Rank | modules/auth/aclManager.go:33-49 | a known role's rank is between 0 (none) and 5 (admin) |
| AclManager.RankRoleInverse | modules/auth/aclManager.go:42-58 | the role-to-rank and rank-to-role tables are inverse of each other, and ranks exist exactly for 0..5 |
| AclManager.StoredIn | modules/auth/aclManager.go:137-153 | reading a resource's ACL finds its stored rank exactly when one is stored |
| AclManager.RolesDownToShape | modules/auth/aclManager.go:158-161 | the Allowed loop collects one role per rank, from the top rank down to the lowest |
| AclManager.AllowedStored | modules/auth/aclManager.go:149-163 | for a stored rank, Allowed lists admin first, the stored rank's role last, with ranks descending by one |
| AclManager.AllowedIffAuthorized | modules/auth/aclManager.go:133-163 | for a known role, the role is in Allowed exactly when Authorized holds, with and without a stored ACL |
| AclManager.UnknownRoleRefused | modules/auth/aclManager.go:142-145 | an unknown role is never authorized for a resource with an ACL, and never listed |
| AclManager.LoadAcls | modules/auth/aclManager.go:103-110 | loading succeeds iff every configured entry has a known role and a successful Update, storing every rank over the existing ones; otherwise it returns the first failing entry's error ("Invalid Role" or the store's), with the entries configured before it left written |
| AclManager.EntryError | modules/auth/aclManager.go:114-124 | configuring one entry fails with "Invalid Role" for an unknown role, otherwise with the store's Update error, if any |
| AclManager.Written | modules/auth/aclManager.go:103-110 | the store after configuring some entries holds their ranks over the earlier ACLs |
| AclManager.LoadStep | modules/auth/aclManager.go:104-109 | configuring one more entry without error adds it to the loaded entries and writes its rank |
| AclManager.Manager.constructor | modules/auth/aclManager.go:101 | the manager starts from the store's ACLs, all of them valid ranks |
| AclManager.Manager.Stored | modules/auth/aclManager.go:137 | the stored rank of a resource, if any |
| AclManager.Manager.Configure | modules/auth/aclManager.go:114-124 | Configure refuses an unknown role with "Invalid Role", passes on a store error unchanged, and otherwise stores the role's rank |
| AclManager.Manager.Delete | modules/auth/aclManager.go:126-131 | Delete removes the resource's ACL, or returns the store's error leaving the ACLs |
| AclManager.Manager.Authorized | modules/auth/aclManager.go:133-147 | no ACL means authorized; with one, an unknown role is refused and a known role passes iff its rank is at least the stored one |
| AclManager.Manager.Allowed | modules/auth/aclManager.go:149-163 | Allowed lists all six roles without an ACL and otherwise the roles from admin down to the stored rank |
| AclManager.NewAclManager | modules/auth/aclManager.go:85-112 | in P2P mode the shared store's error is returned as is; otherwise construction fails iff some "ACL" entry fails, with the writes before it kept; on success the manager holds the configured ACLs over the stored ones and is valid |
| AclManager.DeleteReopens | modules/auth/aclManager.go:126-141 | after Delete every role is authorized for the resource |
| JsonConf.DecodeBool | modules/config/json/jsonConfig.go:18-25 | decoding into a bool succeeds exactly for a boolean or null, a boolean giving its value |
| JsonConf.DecodeInt | modules/config/json/jsonConfig.go:18-25 | decoding into an int succeeds exactly for a number or null, a number giving its value |
| JsonConf.DecodeString | modules/config/json/jsonConfig.go:18-25 | decoding into a string succeeds exactly for a string or null, a string giving its text |
| JsonConf.Strings | modules/config/json/jsonConfig.go:18-25 | an array decodes into strings exactly when every item is a string, item by item |
| JsonConf.DecodeStrings | modules/config/json/jsonConfig.go:18-25 | null gives the nil slice, which reads as empty; anything but an array fails |
| JsonConf.DecodeIntMap | modules/config/json/jsonConfig.go:18-25 | an object of numbers decodes into a map, merged over the prior map with the object's entries winning; null gives the nil map, which reads as empty; other values fail |
| JsonConf.DecodeStringMap | modules/config/json/jsonConfig.go:18-25 | an object of strings decodes into a map, merged over the prior map with the object's entries winning; null gives the nil map, which reads as empty; other values fail |
| JsonConf.Lookup | modules/config/json/jsonConfig.go:14-17 | a key's value is found exactly when the key is present |
| JsonConf.IsSetIn | modules/config/json/jsonConfig.go:32-35 | IsSet is true iff the key holds true, false iff it is absent or holds false, and panics (None) on a non-boolean value |
| JsonConf.GetString | modules/config/json/jsonConfig.go:13-26 | Get into a string succeeds iff the key is present with a string or null value |
| JsonConf.GetInt | modules/config/json/jsonConfig.go:13-26 | Get into an int succeeds iff the key is present with a number or null value |
| JsonConf.Config.constructor | modules/config/json/jsonConfig.go:42-45 | DefaultConfig is empty |
| JsonConf.Config.FromFile | modules/config/json/jsonConfig.go:47-55 | a config read from a file holds exactly the file's entries |
| JsonConf.Config.Set | modules/config/json/jsonConfig.go:28-30 | Set stores the value under the key and changes nothing else |
| JsonConf.Config.SetAll | modules/config/json/jsonConfig.go:78-85 | closing the writer merges the decoded object over the entries |
| JsonConf.Config.Exists | modules/config/json/jsonConfig.go:37-40 | Exists iff the key is present |
| JsonConf.Config.Get | modules/config/json/jsonConfig.go:13-17 | the value stored under the key, if any |
| JsonConf.Config.IsSet | modules/config/json/jsonConfig.go:32-35 | IsSet on the current entries |
| JsonConf.GetAfterSet | modules/config/json/jsonConfig.go:13-30 | Get after Set returns the value set, and other keys are unaffected |
| JsonConf.StringsRoundTrip | modules/config/json/jsonConfig.go:18-25 | an array of strings decodes back to the same slice |
| Datastore.MountEntries | modules/repo/fsrepo/datastore.go:30-47 | without a "Mounts" entry the default level and flatfs mounts are used; an object gives its own entries |
| Datastore.StrField | modules/repo/fsrepo/datastore.go:63-87 | a field is read as a string exactly when it is present and holds a string |
| Datastore.BackendOf | modules/repo/fsrepo/datastore.go:81-104 | only "level" and "flatfs" name a backend; flatfs takes its shard function (default next-to-last/2) and sync flag (default true) from the config |
| Datastore.OpenMount | modules/repo/fsrepo/datastore.go:57-114 | a non-object entry fails with "Sub DS config missing", a missing prefix with "Prefix missing"; an opened mount has the entry's backend, prefix, and a path joined under the root (or the root itself) |
| Datastore.OpenEach | modules/repo/fsrepo/datastore.go:57-120 | the mount loop succeeds iff every entry opens, then mounting all of them indexed by path; on a failure the mounts tried are exactly those opened, in order, by the distinct entries visited before the failing one, whose error is returned |
| Datastore.OpenLoopFails | modules/repo/fsrepo/datastore.go:57-117 | the loop's visited entries and the failing entry witness which mounts were opened before the failure |
| Datastore.Witnessed | modules/repo/fsrepo/datastore.go:113 | every mount collected by the loop came from an entry that opened to it |
| Datastore.EntryOpener | modules/repo/fsrepo/datastore.go:57-115 | each mount entry's outcome is OpenMount of that entry |
| Datastore.OpenDatastoreFromCfg | modules/repo/fsrepo/datastore.go:43-121 | opening succeeds iff every configured mount opens, with one mount per entry; on a failure the mounts closed are exactly those the loop opened before the failing entry, and its error is returned |
| Datastore.AllDone | modules/repo/fsrepo/datastore.go:57 | a loop visiting each map key once visits as many keys as the map has |
| Datastore.KeyString | modules/repo/fsrepo/datastore.go:110-138 | a datastore key string always starts with "/" |
| Datastore.Mounts | modules/repo/fsrepo/datastore.go:128-144 | Mounts fails iff some persistent mount's disk usage fails, and otherwise lists every persistent mount with its path, key prefix and usage |
| Datastore.DefaultMounts | modules/repo/fsrepo/datastore.go:30-41 | the default mounts open leveldb at root/kv under "/" and flatfs at root/blocks under "blocks" with next-to-last/2 and sync |
| Datastore.UnknownTypeFails | modules/repo/fsrepo/datastore.go:101-103 | any mount name other than level and flatfs fails with "Invalid datastore type" |
| FsRepo.Disk.constructor | modules/repo/fsrepo/fsrepo.go:121-129 | the disk holds the given directories and config files |
| FsRepo.HasIdentity | modules/repo/fsrepo/fsrepo.go:142-143 | a configured identity is one that decodes as an object (or null) |
| FsRepo.Init | modules/repo/fsrepo/fsrepo.go:131-158 | Init refuses an initialized path with "already initialized" changing nothing; otherwise it returns the directory, identity or write error InitError names, creates the repository and datastore directories, generates an identity only when none is configured, and on success leaves the path initialized with the config written |
| FsRepo.InitError | modules/repo/fsrepo/fsrepo.go:131-158 | the first failing step of Init, in the code's order: making a directory, generating an identity when none is configured, writing the config |
| FsRepo.Repo.constructor | modules/repo/fsrepo/fsrepo.go:200-213 | a new repository holds its path, config, datastore and an open key-value store |
| FsRepo.Repo.CloseStores | modules/repo/fsrepo/fsrepo.go:267-284 | close drops both stores and returns the errors of those that were open |
| FsRepo.CloseErrors | modules/repo/fsrepo/fsrepo.go:267-284 | close returns nil exactly when every open store closed cleanly, and at most two errors |
| FsRepo.OpenRepo | modules/repo/fsrepo/fsrepo.go:160-214 | open fails with "failed opening config" without a config; a missing datastore directory is created and leaves no datastore; otherwise it succeeds iff every mount opens |
| FsRepo.RepoOpener.constructor | modules/repo/fsrepo/fsrepo.go:69 | the opener starts with no active repositories |
| FsRepo.RepoOpener.Open | modules/repo/fsrepo/fsrepo.go:33-50 | an active path gets its count raised and the same instance back; a new path is opened and entered with count 1; on an error the map is unchanged |
| FsRepo.RepoOpener.Close | modules/repo/fsrepo/fsrepo.go:52-65 | an unknown path is a nil no-op; above one the count drops with nil; the last close removes the entry and closes its stores, returning their errors |
| FsRepo.Open | modules/repo/fsrepo/fsrepo.go:190-198 | Open fails with "not initialized" before Init, otherwise goes through the opener, succeeding iff the path is active or opens; the config files are unchanged |
| FsRepo.CreateOrOpen | modules/repo/fsrepo/fsrepo.go:216-229 | without a RootPath string it fails with "root path not specified"; an initialized root is opened, succeeding iff it is active or its mounts open; otherwise Init runs and its error is returned, or the config is written and the root opened |
| Node.New | modules/node/node.go:51-118 | a repository error is returned as is; a missing ServiceName string fails with "service name not configured"; a task manager exists iff TMWorkersMin is an int, with that many workers, a queue three times as long and a 15-second idle time |
| Node.TM | modules/node/node.go:149-154 | the TaskManager, or "Taskmanager not configured" exactly when there is none |
| Node.JWT | modules/node/node.go:195-200 | the JWT manager, or "JWT not configured" exactly when there is none |
| Node.ACL | modules/node/node.go:202-207 | the ACL manager, or "ACL manager not configured" exactly when there is none |
| Node.Locker | modules/node/node.go:238-243 | the locker, or "Locker not configured" exactly when there is none |
| Node.Events | modules/node/node.go:245-250 | the events service, or "Events not configured" exactly when there is none |
| Node.NodeApi | modules/node/node.go:156-161 | the node API, or "Node not configured" exactly when there is no p2p host |
| Node.GRPC | modules/node/node.go:209-214 | the gRPC API, or "GRPC service not configured" exactly when there is no gRPC server |
| Node.HTTP | modules/node/node.go:227-232 | the HTTP API, or "HTTP service not configured" exactly when there is no HTTP mux |
| Node.Client | modules/node/node.go:220-225 | without service discovery "Service discovery not configured", otherwise the discovery client's answer |
| Node.SharedStorage | modules/node/node.go:252-257 | without a provider "shared storage provider not configured", otherwise the provider's answer |
| Msuite.StrMap | msuite.go:59-66 | a locker option's string settings become config strings, key for key |
| Msuite.IntMap | msuite.go:113-120 | a worker-count map becomes a config object of numbers, key for key |
| Msuite.BaseServicesAfterWrite | msuite.go:144-150 | the Services list reads back as written, and defaults to ["msuite"] when absent |
| Msuite.TmWorkersArithmetic | msuite.go:163-185 | Min grows by 1, plus 1 for TCP, 2 for P2P and 1 for HTTP; Max is kept when it covers Min and otherwise becomes twice Min; other entries are kept |
| Msuite.TmWorkersTcpOnly | msuite.go:163-185 | a TCP-only build with no TMWorkers gets Min 2 and Max 4 |
| Msuite.BuildCfg.constructor | msuite.go:190-193 | the build starts with an empty config and no services |
| Msuite.BuildCfg.Apply | msuite.go:24-142 | each option adds exactly its settings to the config; WithService registers its init function by name |
| Msuite.BuildCfg.DefaultOpts | msuite.go:144-187 | defaultOpts writes the base services followed by every registered service, then the root path, then sizes the TaskManager, panicking as WithRoot and SizeTaskManager say |
| Msuite.BuildCfg.ExtendServices | msuite.go:145-154 | the Services entry becomes the base list followed by each registered service name exactly once |
| Msuite.BuildCfg.DefaultRoot | msuite.go:156-162 | the root path step's effect on the config is WithRoot's |
| Msuite.BuildCfg.SizeTM | msuite.go:163-186 | the TaskManager step's effect on the config is SizeTaskManager's |
| Msuite.WithRoot | msuite.go:156-162 | a configured RootPath is kept; without one a missing home directory panics, and otherwise only RootPath is added |
| Msuite.SizeTaskManager | msuite.go:163-186 | it panics exactly when a flag is set to a non-boolean, or when a flag is on and TMWorkers holds null (a write to the nil map); without P2P, TCP or HTTP the config is untouched; otherwise only TMWorkers is rewritten as TmWorkers says |
| Msuite.FlagsUnaffected | msuite.go:144-163 | writing Services or RootPath does not change the flags or TMWorkers |
| Msuite.NodeKeysUnaffected | msuite.go:144-200 | writing Services, RootPath or TMWorkers does not change what node.New does |
| Msuite.New | msuite.go:189-215 | success means node.New succeeded on the built config and every init function returned nil; a failing init function stops the service and its error is returned |
| Msuite.BuildCfg.ApplyAll | msuite.go:194-196 | running the options in order on a fresh build state yields the configuration Built describes and the init functions ServicesOf registers |
| Msuite.RunInits | msuite.go:205-212 | the init functions all pass exactly when none fails; an error returned is one a registered init function gave |
| Msuite.DefaultsKeepNode | msuite.go:144-198 | defaultOpts panics only without a RootPath and a home, or on a non-boolean flag; a node built after it reads the same ServiceName and TMWorkersMin as before it |
| Msuite.ServiceNameOnlyFromLocker | msuite.go:24-142 | no option other than WithLocker's settings map ever sets ServiceName |
| Msuite.SettingsLackServiceName | msuite.go:24-142 | an option's settings contain ServiceName only from a WithLocker map |
| Msuite.NewLacksServiceName | msuite.go:189-203 | unless a WithLocker map sets ServiceName, node.New refuses the built config with "service name not configured" |
| LibMsuite.ConfigOpt | lib/msuite.go:56-143 | only WithRepositoryRoot, WithServiceName and WithTaskManager leave the config alone |
| LibMsuite.LibSettings | lib/msuite.go:56-137 | the config options write the same settings as the top-level package's options |
| LibMsuite.Defaults | lib/msuite.go:145-165 | an empty service name becomes "msuite", an empty root becomes home/.msuite (a panic without a home directory), and the step panics iff UseP2P or UseTCP is set to a non-boolean |
| LibMsuite.TmExtra | lib/msuite.go:156-164 | without P2P or TCP no workers are added; otherwise 1, plus 1 for TCP and 2 for P2P |
| LibMsuite.BuildCfg.constructor | lib/msuite.go:168-170 | the build starts with an empty config, no root or name, and zero workers |
| LibMsuite.BuildCfg.Apply | lib/msuite.go:56-143 | each option changes exactly its config settings or its own field |
| LibMsuite.BuildCfg.DefaultOpts | lib/msuite.go:145-165 | the build's new state is Defaults of its old state |
| LibMsuite.Int32 | lib/msuite.go:190 | the int32 conversion lands in the 32-bit range and keeps values already in it |
| LibMsuite.New | lib/msuite.go:167-226 | a defaults panic or a repository error is returned; otherwise the service has the defaulted name and root and a task manager iff the worker count is positive, sized by its int32 conversion |
| LibMsuite.TcpOnlyWorkers | lib/msuite.go:156-164 | a TCP-only build gets two TaskManager workers |
| LibMsuite.TM | lib/msuite.go:256-261 | the TaskManager, or "Taskmanager not configured" exactly when there is none |
| LibMsuite.JWT | lib/msuite.go:306-311 | the JWT manager, or "JWT not configured" exactly when there is none |
| LibMsuite.ACL | lib/msuite.go:313-318 | the ACL manager, or "ACL manager not configured" exactly when there is none |
| LibMsuite.Locker | lib/msuite.go:349-354 | the locker, or "Locker not configured" exactly when there is none |
| LibMsuite.Events | lib/msuite.go:356-361 | the events service, or "Events not configured" exactly when there is none |
| LibMsuite.NodeApi | lib/msuite.go:263-268 | the node API, or "Node not configured" exactly when there is no p2p host |
| LibMsuite.GRPC | lib/msuite.go:320-325 | the gRPC API, or "GRPC service not configured" exactly when there is no server |
| LibMsuite.HTTP | lib/msuite.go:338-343 | the HTTP API, or "HTTP service not configured" exactly when there is no mux |
| LibMsuite.Client | lib/msuite.go:331-336 | without service discovery "Service discovery not configured", otherwise the discovery client's answer |
| GrpcClient.ClientSvc.constructor | modules/grpc/client/client.go:26-40 | a new client service has no registered names |
| GrpcClient.ClientSvc.NewClient | modules/grpc/client/client.go:94-102 | NewClient appends the name to the list and keeps the earlier names |
| GrpcClient.ClientSvc.GetSvcs | modules/grpc/client/client.go:86-92 | getSvcs returns a fresh copy of the current list |
| GrpcClient.RoundCalls | modules/grpc/client/client.go:60-75 | a round advertises the names in list order with the 15-minute TTL until the context is seen done; a failed advertise does not stop the round |
| GrpcClient.Names | modules/grpc/client/client.go:63 | the advertised names, call by call |
| GrpcClient.FullRoundAdvertisesAll | modules/grpc/client/client.go:60-75 | an uninterrupted round advertises every registered name once, in order, with the full TTL |
| GrpcClient.InterruptedRoundIsPrefix | modules/grpc/client/client.go:63-69 | a round cut short advertises a prefix of the list and ends the advertiser |
| GrpcClient.RoundSeesRegistered | modules/grpc/client/client.go:58-101 | names registered before a round starts are advertised in that round, after the earlier ones |
| GrpcClient.Execute | modules/grpc/client/client.go:58-84 | the advertiser's calls and whether it returned are those of Run over the rounds, the list re-read before each round |
| GrpcClient.AdvertiseRound | modules/grpc/client/client.go:63-75 | the loop over one round makes exactly RoundCalls |
| GrpcClient.Get | modules/grpc/client/client.go:109-132 | a FindPeers error is returned; no peer in 10 seconds gives "Unable to find peer for service"; a closed channel gives "Invalid address received for peer"; a connect failure gives "Failed to connect to peer"; success is exactly a found, connected and dialled peer |
| Events.HandlersFor | modules/events/events.go:83-143 | a topic's handlers, none for an unknown topic |
| Events.Broadcast | modules/events/events.go:93-109 | a body Marshal error is returned with nothing published; otherwise the topic and body are published in one envelope and the publish error is returned |
| Events.Calls | modules/events/events.go:145-153 | the listener calls at most one handle per handler, each with the received body |
| Events.Dispatch | modules/events/events.go:128-153 | a Next error or an undecodable message calls nothing; otherwise the handlers of the envelope's topic are tried in order |
| Events.DispatchAll | modules/events/events.go:128-153 | a single message causes exactly its own calls |
| Events.DispatchAllQuiet | modules/events/events.go:128-140 | messages carrying no envelope cause no calls |
| Events.DispatchAllSnoc | modules/events/events.go:120-154 | one more message received adds its own calls after those of the earlier messages |
| Events.CallsAfterRegister | modules/events/events.go:82-153 | a newly registered handler is tried after the earlier ones, and only if its factory's event accepts the body |
| Events.CallsExactly | modules/events/events.go:145-153 | a handle is called exactly when it belongs to a handler of the topic whose event unmarshals the body |
| Events.BroadcastReachesTopic | modules/events/events.go:93-153 | a broadcast body reaches exactly the handlers registered for its topic |
| Events.EventsImpl.constructor | modules/events/events.go:47-50 | a new events service has no handlers |
| Events.EventsImpl.RegisterHandler | modules/events/events.go:82-91 | registering appends the handler to the topic's list and stores it back, leaving other topics |
| Events.EventsImpl.Execute | modules/events/events.go:120-155 | the listener loop makes exactly the calls DispatchAll says for the incoming messages |
| EventsRpc.Errors | modules/events/rpc-service/server.go:26-32 | the handler errors, in order; as many as handlers exactly when every handler failed |
| EventsRpc.FirstError | modules/events/rpc-service/server.go:33-36 | the first collected error is the first handler's |
| EventsRpc.Outcome | modules/events/rpc-service/server.go:21-45 | an unknown topic gives "Service ... doesnt implement handler for event:..."; a known topic fails iff every handler failed, with the first handler's error, and otherwise gives "success" |
| EventsRpc.EventsServer.constructor | modules/events/rpc-service/server.go:65-71 | a new server for a service has no handlers |
| EventsRpc.EventsServer.Registered | modules/events/rpc-service/server.go:22 | a topic's handler list, never empty, exactly when the topic is registered |
| EventsRpc.EventsServer.RegisterHandlerAsWritten | modules/events/rpc-service/server.go:47-59 | as written, a first handler is stored and any later handler for the same topic is lost |
| EventsRpc.EventsServer.RegisterHandler | modules/events/rpc-service/server.go:47-59 | corrected: the handler is appended to the topic's stored list |
| EventsRpc.EventsServer.Handle | modules/events/rpc-service/server.go:21-45 | Handle's answer is Outcome over the registered handlers |
| EventsRpc.SecondHandlerDropped | modules/events/rpc-service/server.go:47-59 | registering a failing handler and then a working one keeps only the failing one, so Handle fails |
| EventsRpc.SecondHandlerKept | modules/events/rpc-service/server.go:47-59 | with the corrected registration both handlers are kept and Handle succeeds |
| BoltDb.StoreKey | modules/store/handlers/boltdb/boltdb.go:42-44 | an item's key is its namespace, "_", then its id |
| BoltDb.WithNewId | modules/store/handlers/boltdb/boltdb.go:50-52 | Create gives an id setter the new id and changes nothing else about the item |
| BoltDb.Abbrev | modules/store/handlers/boltdb/boltdb.go:73-76 | values up to 15 bytes are shown whole; longer ones as 12 bytes and "..." |
| BoltDb.BoltStore.constructor | modules/store/handlers/boltdb/boltdb.go:23-40 | a new store has no bucket |
| BoltDb.BoltStore.Create | modules/store/handlers/boltdb/boltdb.go:46-83 | Create refuses a non-exportable item, reports marshal and put errors leaving the store, and otherwise creates the bucket if needed and stores the value under the item's key |
| BoltDb.BoltStore.Update | modules/store/handlers/boltdb/boltdb.go:85-117 | like Create, but a missing bucket fails with "Bucket does not exist" instead of being created |
| BoltDb.BoltStore.Delete | modules/store/handlers/boltdb/boltdb.go:119-131 | Delete removes the item's key, or fails with "Bucket does not exist" |
| BoltDb.BoltStore.Read | modules/store/handlers/boltdb/boltdb.go:133-165 | Read answers as ReadResult on the current bucket |
| BoltDb.ReadResult | modules/store/handlers/boltdb/boltdb.go:133-165 | no bucket gives ErrBucketNotFound, an absent key "error getting key ..."; success exactly for a stored key, an exportable item and a clean Unmarshal, giving the stored value |
| BoltDb.CreateThenRead | modules/store/handlers/boltdb/boltdb.go:46-165 | reading an item back after Create gives the value it was stored with |
| BoltDb.FreshStoreRefuses | modules/store/handlers/boltdb/boltdb.go:98-141 | before any Create, Update, Delete and Read all fail for the missing bucket |
| BoltDb.ReadAfterDelete | modules/store/handlers/boltdb/boltdb.go:119-148 | after Delete the item's key is gone and every other key reads as before |
| BoltDb.Reversed | modules/store/handlers/boltdb/boltdb.go:185 | List walks the cursor from the last key back to the first |
| BoltDb.Skipped | modules/store/handlers/boltdb/boltdb.go:183-189 | the walk skips Page*Limit keys, none for a non-positive skip, at most all of them |
| BoltDb.Fill | modules/store/handlers/boltdb/boltdb.go:190-199 | filling from slot idx fills at most the remaining keys, and never past a cap |
| BoltDb.ListAsWritten | modules/store/handlers/boltdb/boltdb.go:167-204 | the loop as written follows ListSpec without a cap, and unmarshals the page's keys in reverse cursor order into the slots |
| BoltDb.ListSpec | modules/store/handlers/boltdb/boltdb.go:167-204 | too few items give the "insufficient items" error and a missing bucket "bucket not found", both with count 0; a filled count never exceeds the stored keys, and with the cap never exceeds Limit; List never blocks |
| BoltDb.List | modules/store/handlers/boltdb/boltdb.go:167-204 | corrected List stops at Limit, otherwise giving the same values |
| BoltDb.Walk | modules/store/handlers/boltdb/boltdb.go:175-203 | the cursor walk follows ListSpec, handing the slots the page's values in reverse key order |
| BoltDb.FillUncapped | modules/store/handlers/boltdb/boltdb.go:185-199 | without a stop, filling panics with index out of range once there are more keys than slots |
| BoltDb.FillCapped | modules/store/handlers/boltdb/boltdb.go:185-199 | with a stop at the cap, filling takes the remaining keys up to the cap |
| BoltDb.ListAsWrittenPanics | modules/store/handlers/boltdb/boltdb.go:171-199 | as written, List panics whenever more keys remain after the skip than there are slots |
| BoltDb.ListAsWrittenPanicsOnTwoKeys | modules/store/handlers/boltdb/boltdb.go:171-199 | two stored keys listed with one slot and Limit 1 panic |
| BoltDb.ListFillsPage | modules/store/handlers/boltdb/boltdb.go:167-204 | corrected List returns min(remaining keys, Limit) |
| RedisStore.StoreKey | modules/store/handlers/redis/redis_handler.go:64-69 | the key is db_ns_id when a database name is set, otherwise ns_id |
| RedisStore.WithNewId | modules/store/handlers/redis/redis_handler.go:75-77 | Create gives an id setter the new id and changes nothing else about the item |
| RedisStore.Exec | modules/store/handlers/redis/redis_handler.go:82-160 | ZADD and ZREM change only their sorted set's member, SET and DEL only their key |
| RedisStore.Server.constructor | modules/store/handlers/redis/redis_handler.go:44-60 | the server starts with no keys and no sorted sets |
| RedisStore.Server.Do | modules/store/handlers/redis/redis_handler.go:82-160 | a command that succeeds takes effect; one that fails returns its error and changes nothing |
| RedisStore.Run | modules/store/handlers/redis/redis_handler.go:79-150 | a command sequence stops at the first failing command, naming it, and otherwise every command succeeded |
| RedisStore.CreateIndexesAndStores | modules/store/handlers/redis/redis_handler.go:79-111 | a successful Create of a time-tracked item stores the value and indexes the key in created_ns and updated_ns at the creation time |
| RedisStore.FailedSetLeavesIndexes | modules/store/handlers/redis/redis_handler.go:79-110 | when SET fails after both ZADDs, Create reports "error setting key" with the abbreviated value, and the indexes keep a key that was never stored |
| RedisStore.UpdateReindexes | modules/store/handlers/redis/redis_handler.go:121-150 | a successful Update stores the value and moves the key's updated_ns score to the new time, leaving created_ns |
| RedisStore.ReadResult | modules/store/handlers/redis/redis_handler.go:167-189 | Read succeeds exactly for a stored key of an exportable item that unmarshals, giving the stored bytes; a missing key gives "error getting key ...: redigo: nil returned" |
| RedisStore.RedisHandler.constructor | modules/store/handlers/redis/redis_handler.go:41-43 | the handler keeps its database name |
| RedisStore.RedisHandler.Create | modules/store/handlers/redis/redis_handler.go:71-115 | the server state and error after Create are those of its ordered ZADD, ZADD and SET commands under the item's key |
| RedisStore.RedisHandler.Update | modules/store/handlers/redis/redis_handler.go:117-154 | the server state and error after Update are those of its ordered ZREM, ZADD and SET commands |
| RedisStore.RedisHandler.Delete | modules/store/handlers/redis/redis_handler.go:156-165 | Delete removes the key, or wraps the server's error as "error deleting key" and changes nothing |
| RedisStore.RedisHandler.List | modules/store/handlers/redis/redis_handler.go:265-329 | List answers as ListSpec, and a natural sort scans with the pattern as written |
| RedisStore.RedisHandler.Read | modules/store/handlers/redis/redis_handler.go:167-189 | Read answers as ReadResult on the server's keys |
| RedisStore.Page | modules/store/handlers/redis/redis_handler.go:194-211 | a page is the keys after the skip, at most Limit of them (any number for a non-positive Limit), in order |
| RedisStore.FullPageStays | modules/store/handlers/redis/redis_handler.go:203-227 | once Limit keys are sent, later batches change nothing |
| RedisStore.PageAppend | modules/store/handlers/redis/redis_handler.go:194-211 | paging over two batches is paging the first, then the second with what is left of the skip and the limit |
| RedisStore.RangeQuery | modules/store/handlers/redis/redis_handler.go:232-260 | created sorts query created_ns and updated sorts updated_ns, both ascending, from "-inf" unless a version is given |
| RedisStore.HandleArr | modules/store/handlers/redis/redis_handler.go:195-211 | a batch shorter than the skip only reduces it; otherwise the batch's page is sent, full exactly at Limit; a negative skip panics on the slice |
| RedisStore.GetKeys | modules/store/handlers/redis/redis_handler.go:191-263 | getKeys emits KeysSpec's keys, issuing SCAN MATCH for natural sort, ZRANGEBYSCORE for the time sorts and nothing for others |
| RedisStore.TraceStep | modules/store/handlers/redis/redis_handler.go:217-231 | a SCAN reply with a non-zero cursor contributes its keys and the scan continues |
| RedisStore.TraceEnd | modules/store/handlers/redis/redis_handler.go:218-230 | a SCAN error or a zero cursor ends the scan |
| RedisStore.ScanKeys | modules/store/handlers/redis/redis_handler.go:213-231 | the natural-sort loop emits the page of all scanned keys, and reports a SCAN error only when the page is not yet full |
| RedisStore.ScanFrom | modules/store/handlers/redis/redis_handler.go:217-231 | from a non-negative skip, the SCAN loop emits the page of the scanned keys |
| RedisStore.Consume | modules/store/handlers/redis/redis_handler.go:296-323 | the consumer fills at most one slot per received key and never blocks; with no error it filled one per key |
| RedisStore.ListWith | modules/store/handlers/redis/redis_handler.go:265-329 | List with a given scan pattern answers as ListSpec: a panic on a negative Limit, a hang for an unbuffered channel left undrained, or the items and error |
| RedisStore.ListSpec | modules/store/handlers/redis/redis_handler.go:265-329 | too few items give the "insufficient items" error; a negative Limit panics in make; a hang needs Limit 0 and at least two keys; otherwise at most Limit (and at most len(l)) items are filled, one per key when no error occurs |
| RedisStore.KeysSpec | modules/store/handlers/redis/redis_handler.go:191-263 | a negative skip panics; at most Limit keys are emitted; a natural sort emits a run of the scanned keys starting at the skip; an unknown sort emits nothing |
| RedisStore.UnbufferedListHangs | modules/store/handlers/redis/redis_handler.go:267-323 | with Limit 0 the key channel is unbuffered: when the first key is missing the collector stops, and the producer blocks on its second key |
| RedisStore.ScanPatternAsWritten | modules/store/handlers/redis/redis_handler.go:215 | the natural-sort pattern as written is the namespace followed by "_*" |
| RedisStore.ScanPattern | modules/store/handlers/redis/redis_handler.go:64-215 | the corrected pattern agrees with the written one when no database name is set |
| RedisStore.PatternMatchesStoredKeys | modules/store/handlers/redis/redis_handler.go:64-215 | every stored key of a namespace matches the corrected pattern |
| RedisStore.AsWrittenPatternMissesKeys | modules/store/handlers/redis/redis_handler.go:64-215 | with database "db", the key db_a_1 does not match the written pattern a_* |
| RedisStore.ListFillsPage | modules/store/handlers/redis/redis_handler.go:265-329 | when every key emitted is stored and every slot accepts, List returns as many items as keys, at most Limit |
| RedisStore.ConsumeAll | modules/store/handlers/redis/redis_handler.go:296-323 | the consumer fills a slot for every key when all keys are stored and all slots accept |
| ConnPool.InitStep | utils/conn_pool.go:41-58 | the lazy init either returns the dial error leaving the pool uninitialized and empty, or queues the first connection with a fresh heartbeat, one open and one idle |
| ConnPool.TakeStep | utils/conn_pool.go:65-88 | a queued connection is taken first, one fewer idle; with an empty queue a new one is dialled below MaxConnections ("Failed to open new connection" on error), and at the limit "Timeout while getting new connection." |
| ConnPool.RefreshStep | utils/conn_pool.go:90-108 | a connection is returned untouched unless its heartbeat is older than 15 minutes; a failed heartbeat drops it and returns the redial's outcome; the queue and counters never change |
| ConnPool.GetConnSpec | utils/conn_pool.go:35-110 | a failed lazy dial returns its error with the pool still uninitialised; a connection is handed out only from an initialised pool; with no queued connection and MaxConnections open it times out; every error is the dial's, the redial's, "Failed to open new connection" or the timeout |
| ConnPool.DoneSpec | utils/conn_pool.go:112-121 | at MaxIdle the connection is closed (corrected: one fewer open); below it the connection is queued and one more is idle |
| ConnPool.TakeKeepsAccounts | utils/conn_pool.go:65-88 | taking a connection keeps open = queued + in use <= MaxConnections, and the taken connection was not in use |
| ConnPool.InitKeepsAccounts | utils/conn_pool.go:41-58 | a successful init leaves one open connection, queued, and the accounts balanced |
| ConnPool.RefreshKeepsAccounts | utils/conn_pool.go:90-108 | the heartbeat check keeps the accounts balanced, except that a dropped connection whose redial fails is still counted as open |
| ConnPool.TakenKeepsAccounts | utils/conn_pool.go:41-88 | init followed by the take keeps the accounts balanced and hands out a connection not in use |
| ConnPool.GetConnKeepsAccounts | utils/conn_pool.go:35-110 | GetConn keeps open = queued + in use <= MaxConnections whenever no connection is lost to a failed redial |
| ConnPool.DoneKeepsAccounts | utils/conn_pool.go:112-121 | the corrected connDone keeps the accounts balanced |
| ConnPool.DoneAsWrittenLeaks | utils/conn_pool.go:113-116 | connDone as written, closing at MaxIdle, leaves one more connection counted open than exists |
| ConnPool.LeakAsWritten | utils/conn_pool.go:35-121 | with MaxConnections 2 and MaxIdle 1, two connections taken and returned, then two GetConn calls, the second call times out although only one connection exists |
| ConnPool.NoLeak | utils/conn_pool.go:35-121 | on the same calls the corrected connDone lets the second call dial a new connection |
| ConnPool.Pool.constructor | utils/conn_pool.go:18-31 | a new pool is uninitialized, with nothing queued or open |
| ConnPool.Pool.GetConn | utils/conn_pool.go:35-110 | the pool's new state and the result are GetConnSpec of the old state: init, take, heartbeat check |
| ConnPool.Pool.ConnDone | utils/conn_pool.go:112-121 | the pool's new state is the corrected DoneSpec |
| ConnPool.Pool.ConnDoneAsWritten | utils/conn_pool.go:112-121 | the pool's new state is DoneSpec as written |
| GrpcAuth.Search | modules/node/grpc/middleware.go:104-108 | the role loop finds a role exactly when it is in the list |
| GrpcAuth.FirstToken | modules/node/grpc/middleware.go:91-99 | the token is the first "authorization" value, present exactly when metadata exists and holds at least one |
| GrpcAuth.TokenCheckPasses | modules/node/grpc/middleware.go:91-110 | the token check passes exactly when the first token verifies to claims whose role is allowed |
| GrpcAuth.TokenCheck | modules/node/grpc/middleware.go:91-110 | no token is Unauthenticated; a pass needs a first token that verifies |
| GrpcAuth.TokenCheckRefusals | modules/node/grpc/middleware.go:91-109 | no metadata and no token are Unauthenticated with their messages; a bad token is Unauthenticated with "access token is invalid: " and the error; a role not allowed is PermissionDenied |
| GrpcAuth.OnlyFirstToken | modules/node/grpc/middleware.go:95-99 | only the first authorization value matters: equal first tokens give equal outcomes |
| GrpcAuth.Intercept | modules/node/grpc/middleware.go:59-79 | the handler runs exactly when authorization passes and its answer is returned; otherwise the authorization error is |
| NodeGrpcAuth.Authorize | modules/node/grpc/middleware.go:83-110 | a "none" role among the allowed ones opens the RPC to everyone; otherwise the token check decides |
| NodeGrpcAuth.AuthorizeIff | modules/node/grpc/middleware.go:83-110 | authorize passes exactly when "none" is allowed or the verified token's role is allowed |
| NodeGrpcAuth.AuthorizeByAcl | modules/node/grpc/middleware.go:83-110 | with the roles from the ACL manager, an RPC is open exactly when it has no ACL or rank none, and otherwise admits exactly the verified roles the manager authorizes |
| NodeGrpcAuth.Unary | modules/node/grpc/middleware.go:52-81 | the unary and stream interceptors call the handler exactly when authorize passes |
| JwtMiddleware.JwtAuthOptions | modules/grpc/middleware/jwt.go:32-49 | the options fail with "JWT Secret not provided" exactly when JWTSecret does not decode as a string, and otherwise the manager uses that secret |
| JwtMiddleware.Verify | modules/grpc/middleware/jwt.go:88-108 | Verify succeeds exactly for a token that parses to user claims, returning them; a parse error gives "invalid token: " and the error, other claims "invalid token claims" |
| JwtMiddleware.Authorize | modules/grpc/middleware/jwt.go:153-181 | a method with no stored role record is open to everyone; otherwise the token check against its stored roles decides |
| JwtMiddleware.AuthorizeIff | modules/grpc/middleware/jwt.go:153-181 | authorize passes exactly when the method has no record or the verified token's role is among the stored ones |
| JwtMiddleware.NoneRoleNotSpecial | modules/grpc/middleware/jwt.go:157-165 | a stored "none" role does not open a method: without metadata the call is refused |
| JwtMiddleware.BadTokenMessage | modules/grpc/middleware/jwt.go:100-174 | a token that fails to parse is refused with "access token is invalid: invalid token: " and the parse error |
| JwtMiddleware.Unary | modules/grpc/middleware/jwt.go:122-151 | the interceptors call the handler exactly when authorize passes |
| HttpJwt.Split | modules/node/http/middleware.go:48 | strings.Split on a space always yields at least one field |
| HttpJwt.JoinSplit | modules/node/http/middleware.go:48 | joining the fields with spaces gives back the header |
| HttpJwt.SplitHasNoSpaces | modules/node/http/middleware.go:48 | no field contains a space |
| HttpJwt.SplitTwo | modules/node/http/middleware.go:48-54 | a scheme and a token without spaces split into exactly those two fields |
| HttpJwt.SplitNoSpace | modules/node/http/middleware.go:48 | a header without spaces is a single field |
| HttpJwt.SplitPrefix | modules/node/http/middleware.go:48 | a scheme without spaces, a space and a single-field token split into two fields |
| HttpJwt.JwtIff | modules/node/http/middleware.go:34-70 | the next handler runs exactly when "none" is allowed, or the header has two fields and its token verifies to an allowed role |
| HttpJwt.Jwt | modules/node/http/middleware.go:36-67 | "none" among the roles lets every request through; refusals are 400 or 401, and a 401 comes only from a header with two fields |
| HttpJwt.JwtRefusals | modules/node/http/middleware.go:47-66 | a header without exactly two fields is 400 "token is absent"; a failed verify is 401 "failed verifying token: ..."; a role not allowed is 401 "invalid role for resource" |
| HttpJwt.BearerToken | modules/node/http/middleware.go:47-65 | "Bearer " and a token without spaces passes exactly when the token verifies to an allowed role |
| HttpJwt.NoHeaderIsBadRequest | modules/node/http/middleware.go:47-52 | a missing Authorization header is 400 "token is absent" |
| GrpcJwt.JwtAuthOptions | modules/grpc/jwt.go:27-45 | without use_jwt set to true no interceptors are made; with it a missing or non-RSA pub_key fails with "Public key not specified", and otherwise the interceptors use that key |
| GrpcJwt.ValidateToken | modules/grpc/jwt.go:77-89 | a token is returned exactly when it parses cleanly and is valid; otherwise the parse error is returned, which may be nil |
| GrpcJwt.AuthFuncCases | modules/grpc/jwt.go:55-75 | no metadata gives "Metadata not present", no authorization key "Authorization header not present", a parse error "Invalid token"; a clean valid token passes and is attached to the context |
| GrpcJwt.AuthFunc | modules/grpc/jwt.go:55-75 | an empty authorization list panics on the index, and only then; a passed call had a first token that parsed without error |
| GrpcJwt.InvalidWithoutErrorPasses | modules/grpc/jwt.go:67-88 | a token that parses without error but is not valid passes authFunc, with a nil token in the context |
| GrpcJwt.Unary | modules/grpc/jwt.go:47-53 | the interceptor calls the handler with the attached token exactly when authFunc passes, and fails with its message exactly when authFunc refuses |
| Mesher.PeersForExactly | modules/node/internal/mesher/mesher.go:87-102 | the peers offered to a target are exactly the connected peers other than the target and the host that have addresses, each with its addresses |
| Mesher.PeersFor | modules/node/internal/mesher/mesher.go:87-102 | at most one entry per network peer, never the target or the host, and none when the target is the only peer |
| Mesher.CheckAndAddKeeps | modules/node/internal/mesher/mesher.go:104-123 | checkAndAddPeers keeps, in order, the offered peers already connected or reachable |
| Mesher.CheckAndAdd | modules/node/internal/mesher/mesher.go:104-123 | the answer is at most as long as the offer, the network's peers before stay listed, and every peer answered with is connected afterwards |
| Mesher.CheckAndAddConnects | modules/node/internal/mesher/mesher.go:107-116 | afterwards the network's peers are those before plus the offered peers that could be dialled |
| Mesher.KeptSame | modules/node/internal/mesher/mesher.go:106-121 | the kept list depends only on which offered peers pass |
| Mesher.KeptSubsequence | modules/node/internal/mesher/mesher.go:106-121 | the kept peers are exactly the offered peers that pass, and no more of them |
| Mesher.CheckAndAddStore | modules/node/internal/mesher/mesher.go:114 | the peerstore changes only for offered peers |
| Mesher.Host.constructor | modules/node/internal/mesher/mesher.go:39-67 | the host holds the network's connected peers and the peerstore |
| Mesher.Host.GetPeersFor | modules/node/internal/mesher/mesher.go:87-102 | the loop builds exactly PeersFor |
| Mesher.Host.CheckAndAddPeers | modules/node/internal/mesher/mesher.go:104-123 | the loop's kept peers, the network's peers (with the newly dialled ones added) and the peerstore are those of CheckAndAdd |
| Mesher.Host.HandleMsg | modules/node/internal/mesher/mesher.go:77-85 | a message other than a peer list fails with "incorrect msg received" changing nothing; a peer list is answered with the kept peers, and connects the dialled ones |
| Mesher.Host.BroadcastPeers | modules/node/internal/mesher/mesher.go:125-141 | with no peers to offer nothing is sent and nil returned; otherwise the peer list is sent and the send error returned |
| LockerCommon.ServerAddr | modules/locker/handlers/redis/redis.go:37-46 | a missing or non-string host key gives the host error, then a missing or non-int port key the port error; it succeeds exactly when both are present and typed, with the address host + ":" + the port in decimal |
| LockerCommon.AddrStartsWithHost | modules/locker/handlers/zookeeper/zookeeper.go:56-65 | for a host without a colon the dialled address begins with the host followed by the colon that separates it from the port |
| LockerCommon.JoinInjective | modules/locker/handlers/redis/redis.go:78-83 | joining two parts with a separator not found in the first part is injective, so distinct lock items map to distinct keys |
| Locker.NewLocker | modules/locker/handler.go:21-68 | a locker that is built always gets its Close registered as a stop hook |
| Locker.NewLockerNaming | modules/locker/handler.go:25-57 | no Locker key gives "Locker not configured"; an unknown name gives "Invalid locker handler"; "inmem" always succeeds with the in-memory locker |
| Locker.ZookeeperNeedsHostAndPort | modules/locker/handler.go:35-44 | the zookeeper locker is built exactly when the host and port keys are present and the constructor succeeds; a missing host or port gives its own message, and the built locker uses that host and port |
| Locker.RedisNeedsHostAndNetwork | modules/locker/handler.go:45-54 | the redis locker is built exactly when host and network keys are present; every failure carries "Redis host absent", and the locker gets network then host |
| RedisLocker.GetKey | modules/locker/handlers/redis/redis.go:78-83 | the key fails with ErrMissingInfo exactly when the namespace or the id is empty, and is otherwise namespace, separator, id |
| RedisLocker.GetKeyInjective | modules/locker/handlers/redis/redis.go:78-83 | two lock items whose namespaces hold no separator get the same key only if they are the same item |
| RedisLocker.NewRedisLocker | modules/locker/handlers/redis/redis.go:37-48 | the pool address comes from redis_hostname and redis_port with the "Redis hostname missing" and "Redis port missing" errors, as ServerAddr states |
| RedisLocker.Server.constructor | modules/locker/handlers/redis/redis.go:50-76 | a modelled redis server starts with the given key/value contents |
| RedisLocker.Server.Set | modules/locker/handlers/redis/redis.go:96 | a plain SET overwrites the key's value whatever was there |
| RedisLocker.Server.SetIfAbsent | modules/locker/handlers/redis/redis.go:96 | SET with NX stores the value exactly when the key was absent and otherwise changes nothing |
| RedisLocker.Server.Del | modules/locker/handlers/redis/redis.go:136-141 | DEL removes the key and nothing else |
| RedisLocker.LockAsWritten | modules/locker/handlers/redis/redis.go:89-103 | as written, a valid key is always set (to the value "NX") and the lock is granted, whether or not it was already held; key and connection errors are returned unchanged |
| RedisLocker.Lock | modules/locker/handlers/redis/redis.go:89-103 | corrected: the lock is granted and the key set exactly when the key was absent; a held key gives the nil reply error and changes nothing |
| RedisLocker.TryLock | modules/locker/handlers/redis/redis.go:105-134 | when the reply wins the race it behaves as Lock; when the timer wins it gives ErrTimeout, and the key is set only if the abandoned SET still lands on an absent key |
| RedisLocker.Unlock | modules/locker/handlers/redis/redis.go:136-141 | unlock returns the connection's error and deletes the key exactly when there is none |
| RedisLocker.TwoHoldersAsWritten | modules/locker/handlers/redis/redis.go:96 | as written, two Lock calls on the same item both succeed |
| RedisLocker.OneHolder | modules/locker/handlers/redis/redis.go:89-103 | corrected, the second Lock on a held item fails, and after unlocking a third succeeds |
| RedisLocker.LockThenUnlock | modules/locker/handlers/redis/redis.go:89-141 | lock succeeds exactly for a valid key that was not held, and lock followed by unlock restores the server's contents |
| ZkLocker.GetZNodePath | modules/locker/handlers/zookeeper/zookeeper.go:45-54 | the path fails with the missing-information error exactly when namespace or id is empty, and is otherwise "/" namespace "/" id |
| ZkLocker.ZNodePathInjective | modules/locker/handlers/zookeeper/zookeeper.go:45-54 | two items whose namespaces hold no "/" get the same znode path only if they are the same item |
| ZkLocker.LockPathAsWritten | modules/locker/handlers/zookeeper/zookeeper.go:99-100 | as written, the lock path is the znode path, or the empty string when the path is refused |
| ZkLocker.SharedEmptyPathAsWritten | modules/locker/handlers/zookeeper/zookeeper.go:99-100 | as written, items of different namespaces with no id share the same empty lock path |
| ZkLocker.Locker.constructor | modules/locker/handlers/zookeeper/zookeeper.go:69-97 | the pool allows 50 connections and keeps 10 idle, and starts with nothing open |
| ZkLocker.Locker.NewLockAsWritten | modules/locker/handlers/zookeeper/zookeeper.go:99-110 | as written, a connection is always taken from the pool, and the lock is made on LockPathAsWritten's path even when the item is incomplete |
| ZkLocker.Locker.NewLock | modules/locker/handlers/zookeeper/zookeeper.go:99-110 | corrected: an incomplete item is refused without touching the pool; otherwise the pool moves as GetConn states and the lock sits on the znode path |
| ZkLocker.Locker.Lock | modules/locker/handlers/zookeeper/zookeeper.go:118-145 | Lock and TryLock take a connection as written (even for an incomplete item) and return the pool's error, then the lock's own error, or the lock on LockPathAsWritten's path |
| ZkLocker.Locker.Unlock | modules/locker/handlers/zookeeper/zookeeper.go:126-129 | the unlock function returns the lock's unlock error and hands the connection back to the pool as connDone is written, without lowering the open count when the connection is closed |
| ZkLocker.Locker.Close | modules/locker/handlers/zookeeper/zookeeper.go:112-116 | Close never fails |
| ZkLocker.NewZkLocker | modules/locker/handlers/zookeeper/zookeeper.go:56-67 | the locker fails exactly when zookeeper_hostname or zookeeper_port is missing or mistyped, with that error, and otherwise gets a fresh pool of the fixed sizes |
| ZkLocker.MissingIdLockedAsWritten | modules/locker/handlers/zookeeper/zookeeper.go:99-107 | as written, an item with no id is locked on the empty path and keeps a pool connection open |
| ZkLocker.MissingIdRefused | modules/locker/handlers/zookeeper/zookeeper.go:45-48 | corrected, the same item is refused with the missing-information error and leaves no connection open |

## Left out

- JSON marshalling of Go values is not modelled. Configuration values are handled as already-decoded `Json` values, and Go's partial decode into typed variables is reduced to "present with the right type or not".
- `filepath.Join` path cleaning is not modelled. Paths are joined with "/" as given, and so is the path cleaning in `KeyString`.
- The directories that the datastore mounts create on disk are not tracked by the `FsRepo.Disk` model.
- The fsRepo `Config`, `SetConfig`, `Store` and `Datastore` accessors only return or store a field, so they are not modelled.
- The `NewRedisStore` and `NewBoltDbStore` configuration constructors are not modelled. They only dial a client.
- The uber-fx dependency-injection wiring is not modelled: lifecycle hooks are recorded as flags, providers as plain calls, and the p2p and host accessors are left out.
- The semantics of the gkvstore library are not modelled beyond the behaviour the store handlers rely on. The key order of the bolt cursor is given as a sequence.
- TimeTracker timestamps are parameters, because clocks are outside the model.
- Marshalling an event message is assumed never to fail.
- The producer/consumer schedule inside the redis `List` is fixed, not left open. The collector is taken to receive every key before it looks at the error channel, and the keys are the sequence the scan yields.
- RedisStore.ListSpec: a collector that stops early on an unbuffered channel (Limit 0) with two or more keys sent is reported as `Hang`, the blocked producer; with a buffered channel the producer is assumed never to fill it.
- Fixed-width integer overflow is modelled only where it matters: the uint16 frame length, and the int32 idle counter read as int. Other `int64` counters are unbounded.
- The gRPC client's timers and retry sleeps are not modelled. The model follows the code, which ignores the TTL returned by the registration and keeps the two-minute loop. The client's own description mentions a back-off and an effective TTL that the code does not implement.
- Go type assertions whose failure the code does not check are modelled as succeeding, or as a `Panic` outcome where the code would panic.
- Cryptography is an oracle. JWT generation, signature checking and token parsing are outside the model.
- The ZooKeeper lock recipe (`zk.Lock`) is an oracle. Its `Lock` and `Unlock` outcomes are parameters.
- The libp2p peerstore's TTLs and address de-duplication are not modelled. Peers are stored as a set of addresses.
- The capacity of the pool's `connChan` is not modelled, so the model never blocks when a connection is put back.
- The redigo pool parameters (`MaxIdle`, `MaxActive`, `IdleTimeout`) are not modelled. Each redis call is one request on the fake server.
- The mesher's `New` and notifier wiring are not modelled; only the message handling and peer exchange are.
- The Prometheus, tracing and CORS middlewares are only pass-through decorators, so they are not modelled.
- The HTTP handler of the status manager is not modelled, because it only serialises `Report`.
- ConnPool.GetConnKeepsAccounts: the accounting invariant is proved only for a redial that succeeds. When the heartbeat fails and the redial fails too, the code drops a connection from `opened` accounting, and the model states that as a separate fact.
- JsonConf.DecodeStrings: an array holding a non-string fails as a whole. encoding/json instead fills the slice as far as it can and returns an error; the decoded config values here are typed, so the difference is not observable in the model.
- Protocols.EchoExchange: proved only when each side's first Read delivers both length bytes. `ShortLengthReadMisframes` shows the exchange going wrong otherwise.
- TransportMux.ReportedTag: follows Go before 1.22, where one range variable is shared by every iteration. From Go 1.22 on, each closure sees its own listener, and the failure would be reported under the failing listener's tag (`FailureReport` with that tag).
- Mesher.CheckAndAdd: a newly connected peer is appended at the end of the network's peer list. The order in which libp2p lists its peers is not modelled.
- AclManager.LoadAcls: Go's map iteration order is left open, so the entries are configured in any order. The store's Update outcome for each resource is a parameter.
- RedisLocker.TryLock: only the corrected set-if-absent form is modelled. The `SET key "NX"` that the code actually sends is covered by `LockAsWritten`.

## Findings

Both halves of each finding are part of the model. The stream handler and `SendMsg`, the zookeeper locker and the redis `List` handler are built on the halves as written.

| source | as written | input that shows it | evidently intended | confidence | as-written member | corrected member |
|---|---|---|---|---|---|---|
| modules/protocols/protocols.go:142-158 | `ReadMsg` reads the two length bytes with a single `Read`, which may return one byte | a stream whose first read yields only the first length byte | read the length with `io.ReadFull` | not executed | Protocols.ReadFrameAsWritten, Protocols.ShortLengthReadMisframes | Protocols.ReadFrame, Protocols.RoundTrip |
| modules/protocols/protocols.go:168-182 | `WriteMsg` writes the length as `uint16(len(msgBuf))`, which wraps for 65536 bytes or more | a 65536-byte message is framed with length 0 | refuse messages longer than 65535 bytes | not executed | Protocols.WriteMsgAsWritten, Protocols.AsWrittenFrameDoesNotReadBack | Protocols.WriteMsgSpec, Protocols.WrittenFrameReadsBack |
| modules/grpc/mux/mux.go:78-86 | `wg.Add(1)` comes before `GoFunc`, and a refused task never calls `wg.Done` | a scheduler that refuses one listener | add to the wait group only once the listener goroutine is scheduled | not executed | GrpcMux.Mux.StartAsWritten, GrpcMux.Mux.FinishClose | GrpcMux.Mux.Start |
| modules/events/rpc-service/server.go:47-56 | the appended handler slice is never stored back | registering two handlers on one topic | store the extended slice | not executed | EventsRpc.EventsServer.RegisterHandlerAsWritten, EventsRpc.SecondHandlerDropped | EventsRpc.EventsServer.RegisterHandler, EventsRpc.SecondHandlerKept |
| modules/store/handlers/boltdb/boltdb.go:165-200 | the cursor loop never stops at `Limit` and indexes `l[idx]` past its end | Limit 1, a one-slot page and two stored keys | stop once Limit items are filled | not executed | BoltDb.ListAsWritten, BoltDb.ListAsWrittenPanicsOnTwoKeys | BoltDb.List, BoltDb.ListFillsPage |
| utils/conn_pool.go:112-121 | closing a connection at `MaxIdle` does not decrement `opened` | MaxConnections 2, MaxIdle 1: take two connections, hand both back, take the queued one; the next GetConn times out | decrement `opened` when a connection is closed | not executed | ConnPool.Pool.ConnDoneAsWritten, ConnPool.LeakAsWritten | ConnPool.Pool.ConnDone, ConnPool.NoLeak |
| modules/store/handlers/redis/redis_handler.go:215 | the SCAN pattern `ns + "_*"` ignores the `dbName` prefix that `storeKey` adds | dbName "db", namespace "a": the key "db_a_1" does not match "a_*" | scan with the same prefix that `storeKey` writes | not executed | RedisStore.ScanPatternAsWritten, RedisStore.AsWrittenPatternMissesKeys | RedisStore.ScanPattern, RedisStore.PatternMatchesStoredKeys |
| modules/locker/handlers/redis/redis.go:96 | `SET key "NX"` stores the string "NX" as the value and always succeeds | two Lock calls on one item | `SET key value NX`, refused while the key is held | not executed | RedisLocker.LockAsWritten, RedisLocker.TwoHoldersAsWritten | RedisLocker.Lock, RedisLocker.OneHolder |
| modules/locker/handlers/zookeeper/zookeeper.go:99-107 | `newLock` discards the error of `getZNodePath` and locks the empty path | an item with namespace "orders" and no id | return the missing-information error | not executed | ZkLocker.LockPathAsWritten, ZkLocker.MissingIdLockedAsWritten | ZkLocker.Locker.NewLock, ZkLocker.MissingIdRefused |
| modules/grpc/transport/mux/mux.go:92-99 | each `reportErr` closure calls `reportError(v.Tag, err)` on the range variable `v`, which before Go 1.22 is shared by every iteration | two listeners "a" and "b": a failure of "a" is reported as "b" failing | report under the failing listener's own tag | not executed; depends on the Go version the module is built with | TransportMux.ReportedTag, TransportMux.FailureUnderLastTag | TransportMux.FailureReport, TransportMux.FailureKeepsOthers |

## Notes on the code

- `msuite.New` never sets the `ServiceName` key that the node constructor reads. Building a node fails unless a caller's option supplies it (`Msuite.NewLacksServiceName`).
- The locker factory reports "Redis host absent" for a missing `RedisNetwork` too.
- `validateToken` in modules/grpc/jwt.go returns a nil token and a nil error for a token that parses but is not valid. Such a request would pass authentication. Whether the JWT library ever returns a token that is not valid without an error depends on that library, which is outside the model; `GrpcJwt.InvalidWithoutErrorPasses` states what the code does if it does.
- Dotted or separator-carrying namespaces can make two lock items share a redis key. Injectivity is proved only for namespaces without the separator.
- A zookeeper `Lock` whose lock call fails does not hand its pool connection back.
- In modules/grpc/transport/mux, every closure built by `start` reports errors under the last listener's tag when the range variable is shared (Go before 1.22); `TransportMux.FailureUnderLastTag` states the effect.
