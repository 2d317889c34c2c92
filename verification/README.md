# Verification of the registry's fair lock and protocol

A Dafny model of the key registry: the fair read-write access manager, the registry server with its backup,
the blocking client calls, and the newline framing of their messages. `dafny verify dfyconfig.toml` checks
everything.

## How the files fit together

- `protocol.dfy` holds the message types; `wire.dfy` prints and parses them as compact JSON lines, and `wire_text.dfy`
  writes the text of every message out.
- `lock_spec.dfy` says what the access manager is meant to be: per key, requests join a queue and the front is
  admitted again and again while it is compatible with the holders (`Settle`, `Apply`). `access_manager.dfy` is
  the manager in its own form, objects whose methods update a queue, a reader set and a writer, with the drain
  loop; each method is proved to change the state exactly as `Apply` says.
- `lock_runs.dfy` observes whole runs from outside, through results and channel entries.
- `server_spec.dfy` gives the server's reaction to one event as a function; `registry_server.dfy` is the server
  object, proved to react that way. These proofs are the bridge: what the reactions amount to is said by
  `answers.dfy` (the whole state after every kind of message, each answer written out), `connections.dfy` (who gets
  which id and hears what on connecting), `delivery.dfy` (who hears what, whoever is connected), `replication.dfy`
  (what one request does to the backup) and `replication_runs.dfy` (runs in which clients come and go).
- `client.dfy` is the blocking calls, as an automaton over messages and as the object that plays it on the bytes
  it reads.
- `system.dfy`, `serve.dfy` and `registry_theorems.dfy` put clients, links, server and backup together as a
  system of interleaved steps and prove what holds in every reachable state. `progress.dfy` bounds how long a queued
  call waits, `deadlock.dfy` with `grantable.dfy` say exactly when it can still be granted, and `deadlock_runs.dfy`
  builds runs that end in a deadlock; `runs.dfy` has the steps for building runs. `holder_runs.dfy` says whose address
  a read call returns.
- `framing.dfy` is `receive_message`: chunks, the carry-over buffer, and exactly when a call blocks.
  `stream_history.dfy` says what the server wrote to each client in a run, `byte_level.dfy` interleaves reads of a
  limited size with the steps of the system, and `buffer_size.dfy`, with the run built in `contended_run.dfy`, gives
  the exact size that is safe.
- `backup_link.dfy` is the other end of the forwarding: which reads of a stream of frames bring its messages when
  there is no carry-over. `backup_reads.dfy` applies it to the running system.

The hash set's choice of a holder is nondeterministic: a `:|` in `KeyState.Holder`, a parameter `pick` in the
functions. A `:|` choice is only ever constrained by membership. The channel is a queue field, because its
receiver lives in the same struct as its sender and sending cannot fail.

## Hypotheses

The lock theorems (`LockSpec`, `AccessManagement`, `LockRuns`) and the framing theorems have none beyond what their
statements say. `Answers`, `Connections`, `Delivery`, `Replication` and `ReplicationRuns` assume that one read brings
one message and that stream writes succeed. The theorems about the whole system (`RegistryTheorems`, `StreamHistory`,
`HolderRuns`, `Progress`, `Deadlock`, `Grantable`, `DeadlockRuns`, `ByteLevel`, `BufferSize`, `BackupReads`) assume
what the steps of `RegistrySystem` build in: clients use the blocking calls, send their own process id and have one
request outstanding; nobody disconnects, times out or fails over; stream writes succeed; a request arrives whole in
one server read (that two never share one is proved, `StreamHistory.OneReadOneMessage`); one read of the backup
brings one message (`BackupReads.BackupReadsExactlyWhen` says what happens otherwise); fewer than 999 connections are
accepted, so that no client id meets the two reserved tokens; the backup accepted the primary as its first connection
and serves nobody else. Process and key ids are unbounded naturals; the source's are machine words that are only
compared and, for process ids, counted up.

## Where the code and its comments disagree

- `src/access_manager.rs:36` says pending requests are processed alternately. The code serves them first-in
  first-out, batching consecutive reads; the model follows the code.
- `src/protocol.rs:37` says a response returns a process id. It carries a socket address; so does the model.
- `src/protocol_client.rs:111-112` says that a smaller buffer seems to fix blocking reads. The reason is that a call
  reads before it looks at what it has. In the running system buffers of up to 40 bytes are safe and 41 bytes are
  not (`BufferSize.SafeBufferExactly`): a read of 41 bytes can take the last byte of a Wait together with the whole
  grant behind it. If reads may also join messages of different calls the limit is 37 bytes
  (`Framing.StreamBufferSize`). The 32 bytes of the code are within both.
- The backup keeps no carry-over: it parses whatever one read returned. It reads the forwarded messages, all of them
  in order, exactly when every read that is not blank holds one whole message (`BackupReads.BackupReadsExactlyWhen`);
  two frames in one read are a parse error (`BackupLink.TwoFramesAreAnError`) and both requests are lost to it.
- `src/registry_server.rs:409-410` presents the backup as a mirror of the handled requests. That is true while
  everybody stays connected (`BackupAgrees`). When clients go, it is true all the way exactly when no step loses an
  update (`ReplicationRuns.AgreeUnlessLost`), and a request is sure to lose none exactly when everybody whom it may
  make the server name is connected (`ForwardingIsFaithfulExactlyWhen`); `ReplicationRuns.LostUpdate` is a run that
  loses one.

## What blocks for ever

The calls block until they are granted. A client that asks for a key it holds itself waits for ever if it asks to
write or holds the key for writing, and the caller can tell beforehand (`AskingForHeldKey`, `AskingForHeldKeyHangs`);
`DeadlockRuns.SelfWait` is a run that gets there, for a reader that asks to write and for a writer. So do clients that
wait for one another in a circle (`DeadlockRuns.CircularWait` is a run with two clients and two keys). These knots are
the only calls that cannot be granted any more (`GrantableUnlessKnotted`). Everybody else is granted within a bounded
number of releases (`GrantedWithin`).

## Model

| member | source | states |
|---|---|---|
| LockSpec.Settle | src/access_manager.rs:136-178 | admitting from the front loses and reorders nothing, keeps the creator, and leaves the lock invariant behind whenever a writer excluded readers before |
| LockSpec.SettledIsFrontBlocked | src/access_manager.rs:191-266 | the three unstated facts of the code (a writer excludes readers, a non-empty queue means the key is held, without a writer the front is a write) hold exactly when the front of the queue cannot be admitted: the lock is work-conserving |
| LockSpec.SettleAfterEnqueue | src/access_manager.rs:199-211 | a newcomer is admitted exactly when nobody waits and it is compatible; otherwise exactly it joins the queue, so looking only at the front (read) or only at the holders (write) loses nothing |
| LockSpec.SettleAfterDropStillHeld | src/access_manager.rs:237-242 | releasing a reader that is not the last one can wake nobody |
| LockSpec.ApplyKeepsInv | src/access_manager.rs:92-266 | every public operation keeps the lock invariant of every key and the channel's entries reads or writes |
| LockSpec.RefusalChangesNothing | src/access_manager.rs:92-266 | when each operation is refused, both directions, and that every refusal leaves the manager unchanged |
| LockSpec.RefusalErrors | src/access_manager.rs:92-266 | the four refusals with their errors, as equations: an existing key, an unknown key, a held key that is to be deleted, and a release by a process that does not hold the key |
| LockSpec.AcceptedOutcomes | src/access_manager.rs:92-266 | the whole new state and the result of every accepted create, delete, read and write: an immediate read adds a reader, an immediate write sets the writer, every other access joins the back of the queue |
| LockSpec.DrainWrite | src/access_manager.rs:147-158 | a drain with nobody holding the key and a write in front serves exactly that write |
| LockSpec.DrainReads | src/access_manager.rs:159-173 | with a read in front it serves exactly the maximal leading run of reads, in order |
| AccessManagement.KeyState.constructor | src/access_manager.rs:47-54 | a new key has no holder, no queue and its creator |
| AccessManagement.KeyState.RegisterReader | src/access_manager.rs:56-58 | adds the reader and nothing else |
| AccessManagement.KeyState.RegisterWriter | src/access_manager.rs:60-62 | sets the writer and nothing else |
| AccessManagement.KeyState.Holder | src/access_manager.rs:66-74 | the writer first, else some reader, else the creator |
| AccessManagement.AccessManager.Create | src/access_manager.rs:92-104 | KeyExists on an existing key, otherwise adds the new key and leaves the others alone |
| AccessManagement.AccessManager.Delete | src/access_manager.rs:106-115 | KeyNotFound on an unknown key, KeyAccessed on a held one, otherwise removes exactly that key, whoever asks |
| AccessManagement.AccessManager.ServeReads | src/access_manager.rs:160-171 | the drain loop ends with the greedily settled lock and one channel entry per admitted read, in queue order; it terminates |
| AccessManagement.AccessManager.HandleRequesting | src/access_manager.rs:136-178 | serves an unheld key greedily; every entry it sends names the key's creator as holder; neither the unwrap nor the panic branch is reachable |
| AccessManagement.AccessManager.Read | src/access_manager.rs:191-215 | refines the greedy first-in first-out lock; an immediate read names a member of the reader set after the read |
| AccessManagement.AccessManager.Release | src/access_manager.rs:218-245 | refines the greedy lock: the holder is dropped and the queue served as far as it goes, with one grant per admitted request |
| AccessManagement.AccessManager.Write | src/access_manager.rs:249-266 | refines the greedy lock although it never looks at the queue |
| AccessManagement.AccessManager.TryIter | src/registry_server.rs:379-380 | takes every entry of the channel in order and leaves it empty; every entry is a read or a write |
| LockRuns.WholeRun | src/access_manager.rs:92-266 | in every run from a new manager: the lock invariant; grants followed by the queue equal the arrivals, key by key (no overtaking, loss or duplication); queued results equal grants sent plus requests waiting, through deletion and re-creation |
| LockRuns.DeleteLosesNobody | src/access_manager.rs:106-115 | in every run, a delete that succeeds finds an empty queue |
| LockRuns.StepShortens | src/access_manager.rs:191-266 | while a request waits, holders plus requests ahead never grows and every successful release on the key lowers it |
| LockRuns.NoStarvation | src/access_manager.rs:136-266 | in every run, a request with h holders and i requests ahead is granted within h + i successful releases on its key, whatever is interleaved |
| LockRuns.BoundIsExact | src/access_manager.rs:136-266 | for every h >= 1 and every i there is a run with h holders and i requests ahead in which that bound is needed in full |
| Json.ParsePrint | src/protocol.rs:19-27 | compact JSON is read back to the value it was printed from, whatever follows it |
| Json.PrintPrintable | src/protocol.rs:19-23 | compact JSON with the escapes of section 7 of RFC 8259 holds no control character, whatever the strings are |
| Wire.RoundTrip | src/protocol.rs:19-27 | from_slice undoes to_vec for every message, with the newline (server side) and without (client side) |
| WireText.Decimal | src/protocol.rs:19-23 | ids are printed in decimal without leading zeros |
| WireText.EscapeParts | src/protocol.rs:19-23 | strings are escaped character by character |
| WireText.EscapeOf | src/protocol.rs:19-23 | the escape of every character: quote, backslash and five control characters by a letter, the other control characters as four lower-case hexadecimal digits, all others unchanged |
| WireText.AckText | src/protocol.rs:30-33 | the text of an acknowledgement |
| WireText.SuccessText | src/protocol.rs:30-33 | the text of a success, for every key |
| WireText.WaitText | src/protocol.rs:30-36 | the text of a wait, for every key |
| WireText.HolderText | src/protocol.rs:37-38 | the text of a holder, for every key and address: an array of the two |
| WireText.ErrorResponseText | src/protocol.rs:39 | the text of an error response, whatever it says |
| WireText.CreateText | src/protocol.rs:42-63 | the text of a create request, for all ids: fields in declaration order, the kind by its name |
| WireText.DeleteText | src/protocol.rs:42-63 | the same for delete |
| WireText.ReadText | src/protocol.rs:42-63 | the same for read |
| WireText.WriteText | src/protocol.rs:42-63 | the same for write |
| WireText.ReleaseText | src/protocol.rs:42-63 | the same for release |
| WireText.ConnectionText | src/protocol.rs:54-55 | the text of the connection message, for every id |
| WireText.ConnectionEstablishedText | src/protocol.rs:56-57 | the text of the notice to the backup, for every id |
| WireText.StopRequestText | src/protocol.rs:66-67 | the text of a stop request |
| WireText.DataRequestText | src/protocol.rs:73-74 | the text of a data request, for every key |
| WireText.DataResponseText | src/protocol.rs:75-76 | the text of a data response, whatever the data |
| WireText.MessageOnly | src/protocol.rs:25-27 | a JSON value is read as a message if and only if it is the value of that message: no other names, kinds or shapes are accepted |
| WireText.TextReadExactlyWhen | src/protocol.rs:25-27 | a text without escapes is read as a message if and only if it is the text that to_vec prints for it, with white space around it |
| Wire.BodyHasNoNewline | src/protocol.rs:19-23 | the newline that ends a frame is its only one |
| Wire.ResponseFrameLength | src/protocol.rs:30-40 | no response frame is shorter than 32 bytes, none that answers a client shorter than 37, none that grants an access shorter than 40 |
| Wire.ShortestFrames | src/protocol.rs:30-40 | the shortest acknowledgement, wait and success frames have exactly 32, 37 and 40 bytes |
| Wire.RequestFrameLength | src/registry_server.rs:229-230 | a request with machine-word ids has at most 113 bytes, so it fits the 256 bytes of one server read |
| Framing.FrameReader.ReceiveMessage | src/protocol_client.rs:106-142 | returns the first complete line after at least one read, keeps the rest, keeps partial data across a timeout, and never reports a missing newline |
| Framing.DrainConserves | src/protocol_client.rs:113-126 | lines returned with their newlines, followed by the carry-over, are the bytes read, for every chunking |
| Framing.DrainCount | src/protocol_client.rs:110-119 | exactly one call returns per read that holds a newline, whatever was already buffered |
| Framing.StallsExactlyWhen | src/protocol_client.rs:110-126 | a call blocks with a whole line buffered exactly when some read held two newlines |
| Framing.SafeBufferSize | src/protocol_client.rs:111-114 | a buffer size is safe for a byte stream under every chunking if and only if any two newlines are at least that far apart |
| Framing.MessagesInOrder | src/protocol_client.rs:106-142 | for every chunking, the k-th call that returns yields the k-th message |
| Framing.NeverStalls | src/protocol_client.rs:106-126 | with reads of at most 37 bytes of any stream of a connection message and replies, once the bytes of k frames are there k calls have returned, and the carry-over holds no complete line |
| Framing.StreamBufferSize | src/protocol_client.rs:111-114 | a buffer size is safe for every stream that starts with a connection message and goes on with replies, under every chunking of its bytes, if and only if it is at most 37 |
| ByteLevel.ReadsNeverStall | src/protocol_client.rs:106-126 | with reads of at most 40 bytes interleaved with the running system, in every reachable state: no complete line is left in the carry-over, the calls returned the messages written, in order, and all of them once all bytes were read |
| ContendedRun.GrantedBeforeRead | src/registry_server.rs:375-407 | a run in which a client is told to wait and granted before it has read either, so that Connection, Wait and Success are written to it in a row |
| BufferSize.RunHasReads | src/protocol_client.rs:106-126 | every run of the message-level system is the message level of a run with reads, whatever the buffer size |
| BufferSize.LargerBufferStalls | src/protocol_client.rs:111-114 | for every buffer of more than 40 bytes there is a run of the system in which a waiting client has read its grant, and everything else written to it, and no call returns the grant |
| BufferSize.SafeBufferExactly | src/protocol_client.rs:111-114 | in the running system a buffer size never leaves a complete line unread if and only if it is at most 40; the 32 bytes of the code are |
| RegistryServing.RegistryServer.constructor | src/registry_server.rs:85-103 | the initial state, with or without a backup |
| RegistryServing.RegistryServer.HandleConnection | src/registry_server.rs:168-215 | the new value of every field: a fresh id, its address, the Connection message on the new stream and the notice to the backup; without a backup the first connection is taken for the primary, once |
| RegistryServing.RegistryServer.ProcIdToAddr | src/registry_server.rs:438-447 | refinement helper: the address of a connected process, else an unknown-holder error |
| RegistryServing.RegistryServer.HandleRead | src/registry_server.rs:312-327 | the answer in every case: unknown key, wait, the address of the holder that the hash set yields, or that it is unknown; the key's state changes before the holder is looked up |
| RegistryServing.RegistryServer.HandleAccess | src/registry_server.rs:303-345 | refinement helper: the five kinds of request, their effect on the manager and the answer or error of each |
| RegistryServing.RegistryServer.HandleMessage | src/registry_server.rs:275-350 | refinement helper: every message is a stop, a backup notice, a request, or unexpected |
| RegistryServing.RegistryServer.ForwardRequest | src/registry_server.rs:352-365 | refinement helper: appends to the backup's link if there is one |
| RegistryServing.RegistryServer.HandleResponse | src/registry_server.rs:425-436 | refinement helper: appends one response to exactly the addressed stream, or an invalid-token error |
| RegistryServing.RegistryServer.NotifyGranted | src/registry_server.rs:382-407 | refinement of the loop over the announced requests: notifies in order, skips processes that have gone, abandons the rest at an unknown holder; the unreachable branch is never taken; `DeliverTo` says who hears what |
| RegistryServing.RegistryServer.GrantPending | src/registry_server.rs:378-407 | refinement helper: the channel is empty afterwards whether or not every notification succeeded |
| RegistryServing.RegistryServer.Complete | src/registry_server.rs:376-414 | refinement helper: answer, then notifications, then forwarding, each only if what precedes it succeeded |
| RegistryServing.RegistryServer.HandleRequest | src/registry_server.rs:367-414 | refinement helper: parse, handle, complete; an error stops at the point where the code returns |
| RegistryServing.RegistryServer.HandleError | src/registry_server.rs:266-273 | refinement helper: the error text goes to the sender of the request, as `RequestEffect` uses it |
| RegistryServing.RegistryServer.HandleData | src/registry_server.rs:217-264 | refinement: the object reacts to one readable event with one message as the function that `RequestEffect` and `ReplicationRuns` are about; the backup's stream is ignored, errors are answered, a stop is passed on |
| RegistryServing.RegistryServer.RemoveClient | src/registry_server.rs:449-452 | refinement helper for `ReplicationRuns`: forgets the stream and the address, and touches no lock |
| Connections.WithoutBackup | src/registry_server.rs:168-215 | whatever connects to a new server without a backup: the first connection is the primary and gets token 1000, no id, no address and no message; each later one gets the next id, its address is kept and the Connection message with that id is all it is written |
| Connections.ClientsOfBackup | src/registry_server.rs:168-215 | the same said of one client: connection n + 1 is client n, by its own address |
| Connections.WithBackup | src/registry_server.rs:168-215 | on a new server with a backup the i-th connection gets id i, the address it came from and the message Connection(i), and the backup is sent ConnectionEstablished(i), in order |
| Connections.FreshBackup | src/registry_server.rs:176-188 | the backup that runs start with, written out: it follows from its first connection |
| Connections.ClientsOfRun | src/registry_server.rs:168-452 | in every run in which clients come and go: the id counter is the number of connections, exactly the clients that connected and have not gone have a stream and an address, and it is the address they connected from |
| Answers.ImmediateRead | src/registry_server.rs:312-327 | the whole state after a read of a key that nobody writes or waits for: the reader is registered and is answered with the key and the address of the process that the hash set yields, or, if that has gone, with an unknown-holder error, and then nothing is forwarded |
| Answers.ImmediateWrite | src/registry_server.rs:328-340 | the whole state after a write of a free key: the writer is set, Success(key) to the sender, forwarded, counted |
| Answers.ToldToWait | src/registry_server.rs:312-340 | the whole state after a read or write that must wait: last in the queue, Wait(key) to the sender, forwarded, counted |
| Answers.KeyCreated | src/registry_server.rs:304-307 | the whole state after a successful create |
| Answers.KeyDeleted | src/registry_server.rs:308-311 | the whole state after a successful delete, by anybody |
| Answers.UnknownKey | src/registry_server.rs:266-273 | any request but a create for an unknown key: nothing changes, nothing is forwarded, and the text of the answer |
| Answers.KeyThere | src/registry_server.rs:266-273 | the same for a create of an existing key |
| Answers.HeldKeyStays | src/registry_server.rs:266-273 | the same for a delete of a held key |
| Answers.NothingToRelease | src/registry_server.rs:266-273 | the same for a release by a process that does not hold the key |
| Answers.PlainRelease | src/registry_server.rs:341-414 | the whole state after a release that lets nobody in |
| Answers.WriterLetIn | src/registry_server.rs:375-411 | the whole state after the last holder's release with a write in front: Success(key) to the sender, then Success(key) to the writer if it is connected, nobody else hears anything |
| Answers.ReadersLetIn | src/registry_server.rs:375-411 | the whole state after the last holder's release with reads in front: the maximal run of reads is let in, the sender hears Success(key) and then each connected reader Holder(key, the creator's address), once per queued read |
| Answers.ReadersUnresolved | src/registry_server.rs:375-411 | with the creator gone the same readers are let in, but only the sender hears anything: Success(key) and an unknown-holder error; nothing is forwarded or counted |
| Answers.Stopped | src/registry_server.rs:256-258 | a stop request from any client is passed on unanswered and changes nothing |
| Answers.NoticeAcknowledged | src/registry_server.rs:281-297 | the notice of a new client is answered by Ack, forwarded and counted |
| Answers.Unexpected | src/registry_server.rs:348-349 | data messages, connection messages and responses are answered by "Unexpected request" and change nothing |
| Answers.Unreadable | src/registry_server.rs:266-273 | a parse failure is answered by its text and changes nothing |
| Answers.BackupIgnored | src/registry_server.rs:251-254 | whatever comes on the backup's stream is neither handled nor answered |
| ClientProtocol.ProtocolClient.HandleConnection | src/protocol_client.rs:202-212 | takes the first message and accepts only the connection message, whose id it returns |
| ClientProtocol.ProtocolClient.HandleResponse | src/protocol_client.rs:214-234 | error and wait responses become errors; anything but a response, and a failed receive, is unexpected |
| ClientProtocol.ProtocolClient.AwaitRead | src/protocol_client.rs:145-152 | takes one message and accepts only a holder, whose key and address it returns |
| ClientProtocol.ProtocolClient.AwaitWrite | src/protocol_client.rs:155-162 | takes one message and accepts only a success |
| ClientProtocol.ProtocolClient.ExpectSuccess | src/protocol_client.rs:189-199 | takes one message and accepts only a success for the key asked about |
| ClientProtocol.ProtocolClient.SendRequest | src/protocol_client.rs:304-315 | writes the encoding of one request that carries the client's own id |
| ClientProtocol.ProtocolClient.Create | src/protocol_client.rs:165-174 | sends the request and plays the call automaton on the messages that the bytes still to be read will yield |
| ClientProtocol.ProtocolClient.Delete | src/protocol_client.rs:177-186 | the same for delete |
| ClientProtocol.ProtocolClient.Release | src/protocol_client.rs:268-277 | the same for release |
| ClientProtocol.ProtocolClient.ReadSync | src/protocol_client.rs:248-265 | the same for a read, with at most one Wait; an immediate holder's address is returned; the second answer is compared with the key of the Wait |
| ClientProtocol.ProtocolClient.WriteSync | src/protocol_client.rs:375-395 | the same for a write |
| ClientProtocol.AnswersAccepted | src/protocol_client.rs:189-265 | a call answered by one settling answer, or by Wait and the grant, consumes exactly these and returns what the last one says: the holder's address for a read, nothing for any other call, or the registry's error with its text |
| ClientProtocol.ReadAnswered | src/protocol_client.rs:248-265 | what a read makes of every possible first response; the key of a first holder is not looked at |
| ClientProtocol.WaitingReadAnswered | src/protocol_client.rs:248-265 | what it makes of every possible response after a Wait: only a holder of the key of the Wait is accepted |
| ClientProtocol.WriteAnswered | src/protocol_client.rs:375-395 | the same for the first response to a write |
| ClientProtocol.WaitingWriteAnswered | src/protocol_client.rs:375-395 | the same for a write after a Wait |
| ClientProtocol.PlainAnswered | src/protocol_client.rs:189-199 | what create, delete and release make of every possible response: only a success for their key is accepted |
| ClientProtocol.OtherAnswered | src/protocol_client.rs:214-234 | anything but a response ends every call as unexpected |
| ClientProtocol.NotReceived | src/protocol_client.rs:214-234 | a failed receive or a timeout ends every call as unexpected |
| ClientProtocol.WholeStreamIsHeard | src/protocol_client.rs:106-142 | once a server stream has arrived in reads of at most 37 bytes, the messages the calls will see are exactly those written |
| Delivery.AdmittedAlike | src/access_manager.rs:147-173 | one release announces a single write or reads only |
| Delivery.DeliverTo | src/registry_server.rs:382-407 | a connected process receives exactly the notifications of its own requests, in queue order, if the holder is connected or only writes are announced |
| Delivery.RequestEffect | src/registry_server.rs:217-414 | the whole effect of any request on any stream, with or without a backup and whoever is connected: the sender is answered first, then each admitted request is announced to the process that queued it, in queue order; if readers are admitted and the creator has gone nobody is told and the sender gets an error; the channel ends empty; the request is forwarded and counted exactly if it is handled to the end |
| Delivery.GrantDelivery | src/registry_server.rs:375-447 | if the key's creator is connected, whoever else is not, a release is answered, every admitted request is announced to the connected process that queued it, in queue order and after the reply, the channel is empty and the release is forwarded |
| Delivery.ConnectedEffect | src/registry_server.rs:367-414 | with everybody connected a request is handled to the end exactly unless it is refused, and nobody hears a complaint |
| Delivery.RegistrationKept | src/access_manager.rs:92-266 | only a process's own release on a key takes its registration on that key away |
| Delivery.RegistrationOrigin | src/access_manager.rs:92-266 | whoever is registered after an operation was so before and did not just release, or was just admitted: releasing gives up everything on the key |
| Delivery.AdmittedRegistered | src/access_manager.rs:136-178 | everything announced on the channel is registered when the operation ends |
| Delivery.QueueShare | src/access_manager.rs:136-266 | every queued entry of a process other than the requester stays queued or is announced, once |
| Replication.KeysFollowMessage | src/registry_server.rs:275-423 | a server's locks after a message depend on its locks and the message alone: not on the holder picked, not on who is connected, not on failed answers |
| Replication.DeliverFails | src/registry_server.rs:382-407 | notification stops early exactly when the holder is unknown and some entry is a read |
| Replication.FaithfulUnlessLost | src/registry_server.rs:375-411 | for a given holder yielded by the hash set: one request keeps the backup in step if and only if it is neither an immediate new read whose reported holder has gone nor a writer's release that wakes readers of a key whose creator has gone |
| Replication.NeverLosesExactlyWhen | src/registry_server.rs:312-316 | whatever holder the hash set yields no update is lost, if and only if the readers of the key after an immediate new read, and the creator of a key whose waiting readers a writer lets in, are connected |
| Replication.ForwardingIsFaithfulExactlyWhen | src/registry_server.rs:375-411 | a request is sure to keep the backup in step if and only if everybody whom it may make the server name is connected, which can be checked before it |
| ReplicationRuns.AgreeUnlessLost | src/registry_server.rs:168-452 | in every run in which clients come and go and messages of any kind arrive, primary and backup agree after every event if and only if no event loses an update |
| ReplicationRuns.AgreeWhenNamed | src/registry_server.rs:375-447 | they agree throughout if everybody whom a request may name is connected when it comes, whoever else has gone |
| ReplicationRuns.LostUpdate | src/registry_server.rs:312-316 | a run from a new pair of servers in which they agree until a reader has gone and another client reads; then the primary has a reader of which the backup never hears |
| RegistrySystem.TakeOk | src/protocol_client.rs:214-265 | a client that takes a message keeps the invariant: calls end only in well-formed exchanges and grants are registered |
| ServeStep.ServeKeepsInv | src/registry_server.rs:367-414 | handling any client's request keeps the invariant of the whole system |
| RegistryTheorems.StepKeepsInv | src/registry_server.rs:128-166 | every step of the system keeps the invariant |
| RegistryTheorems.MutualExclusion | src/registry_server.rs:367-407 | in every reachable state, while a client has received a write grant and not sent its release, no other client has a received and unreleased grant on the key |
| RegistryTheorems.BeliefsAreRegistered | src/protocol_client.rs:248-277 | in every reachable state, what a client believes to hold is registered for it in the same mode |
| RegistryTheorems.EveryCallWellAnswered | src/protocol_client.rs:189-265 | in every run, every finished call got one settling answer or Wait then exactly the matching grant, and returned exactly what its last answer says: the holder's address, nothing, or the registry's error with its text; the unexpected-response branches are never taken |
| HolderRuns.AddressesOfConnections | src/registry_server.rs:190-207 | in every reachable state the registry knows exactly the clients that connected, by the ids 1 to n in the order of connecting, each with the address it connected from |
| HolderRuns.HolderInStep | src/registry_server.rs:312-407 | whose address a reader is sent: that of a reader of the key, the one that the hash set yields, if the read is answered at once, and that of the creator if it waited |
| HolderRuns.HolderWritten | src/registry_server.rs:312-447 | in every run, every Holder(key, address) written carries the address from which a client connected that, when it was written, had created the key or was reading it |
| HolderRuns.ReadReturnsHolder | src/protocol_client.rs:248-265 | in every run, the address that a read call returns is that of a client that had created the key or was reading it when the grant was written |
| RegistryTheorems.NothingUnsolicited | src/protocol_client.rs:214-234 | in every reachable state, between calls nothing travels either way and the client is in no queue |
| RegistryTheorems.IdleClientsHoldWhatTheyBelieve | src/registry_server.rs:367-407 | in every reachable state, a client between calls is registered for an access if and only if it believes to hold it: no lock is leaked |
| RegistryTheorems.WaitersWaitForHolders | src/registry_server.rs:312-340 | in every reachable state, a call told to wait whose grant is not on its way is queued exactly once, and either another client holds the key and knows it, is about to hear it or is about to release it, or the waiting client is itself the only holder |
| RegistryTheorems.BackupAgrees | src/registry_server.rs:298-411 | in every reachable state, replaying what is on its way to the backup over the backup's locks gives the primary's locks |
| BackupLink.TwoFramesAreAnError | src/registry_server.rs:229-253 | two frames in one read are a parse error, whatever the messages |
| BackupLink.MessagesReadExactlyWhen | src/registry_server.rs:229-253 | however a stream of forwarded messages is divided into reads, the messages read are those written, in order and no others, if and only if every read that is not blank holds exactly the next body |
| BackupReads.LocksFollowReads | src/registry_server.rs:217-264 | after any reads the backup's locks are its old ones with the messages read applied; a read that is no message changes none |
| BackupReads.BackupReadsExactlyWhen | src/registry_server.rs:217-264 | in every reachable state and for every division into reads of what is on its way, the backup reads exactly the forwarded messages if and only if every read that is not blank holds one whole message, and then its locks are those of the primary |
| StreamHistory.TakeKeepsWritten | src/protocol_client.rs:106-126 | what a client took off its stream and what is still on it make up all that was written to it |
| StreamHistory.WrittenGrows | src/registry_server.rs:168-436 | every step of the system adds to what was written to a client exactly the messages that the server writes to it in that step |
| StreamHistory.WrittenInRun | src/registry_server.rs:168-436 | in every run, what a client took and what is on its stream are all that the server wrote to it, in order |
| StreamHistory.OneReadOneMessage | src/registry_server.rs:229-253 | in every reachable state, all that is on the way from a client with machine-word ids is at most one request, it fits one read of 256 bytes, and it is read back as that request |
| StreamHistory.ClientNeverStalls | src/protocol_client.rs:106-142 | in every run and for every chunking into reads of at most 37 bytes, each client can read every message the server wrote to it whose bytes have arrived, in order |
| Progress.GrantedWithin | src/access_manager.rs:136-266 | in every run of the system, a call that waits in the queue of a key with h holders and i requests ahead has its grant on the way by the time h + i releases of the key were handled, whatever else happens |
| Deadlock.KnotForever | src/protocol_client.rs:248-265 | clients each of which is blocked on a key that one of them holds are never granted what they asked for, in any run |
| Grantable.GrantableUnlessKnotted | src/protocol_client.rs:248-265 | in every reachable state, a call that is queued or whose request is still on its way can be granted in some continuation if and only if it belongs to no such knot |
| Grantable.UpgradeNeverGranted | src/protocol_client.rs:375-395 | a client that waits for a key it believes to hold, such as a reader that asks to write, can never be granted |
| Grantable.AskingForHeldKey | src/protocol_client.rs:248-265 | when a client asks for a key it holds, the call can be granted if and only if the registry would not queue it now; it queues every write and every read of a key held for writing, which the caller knows before it asks |
| Grantable.AskingForHeldKeyHangs | src/protocol_client.rs:375-395 | such a write, or read of a key held for writing, stays blocked and ungranted in every continuation |
| DeadlockRuns.SelfWait | src/access_manager.rs:249-266 | a run in which a client that holds a key, for reading or for writing, asks to write it, is queued behind itself and can never be granted |
| DeadlockRuns.CircularWait | src/access_manager.rs:249-266 | a run in which two clients each hold a key and ask for the other's, are both queued and can never be granted |

## Left out

- Sockets, polling, tokens as system handles, threads, logging and timeouts: links are lists of messages, a byte
  stream is the list of chunks its reads return, and running out of them stands for a timeout.
- RegistryTheorems.BackupAgrees: assumes that nobody disconnects and that each read of the backup brings one message;
  `ReplicationRuns.AgreeUnlessLost` is the exact statement for runs in which clients go, and
  `BackupReads.BackupReadsExactlyWhen` the one for reads of any kind.
- RegistryTheorems.MutualExclusion: assumes that nobody disconnects or fails over; a disconnect releases no lock,
  and a client that fails over discards its new id (`src/protocol_client.rs:279-350`).
- RegistryServing.RegistryServer.HandleData: takes one whole message per read; the server parses whatever one read
  returned (`src/registry_server.rs:229-253`), so a message split over two reads, or several forwarded messages in
  one read of the backup, are a parse error there (`BackupLink`). Closed and reset connections are `RemoveClient`.
  A readable event of a stream that is not there, which ends the server (`src/registry_server.rs:226`), is left out.
- RegistryServing.RegistryServer.HandleRequest: takes the parse failure as given. The source logs it with
  `from_utf8(..).unwrap()` (`src/registry_server.rs:372-374`), so with error logging on, bytes that are not UTF-8 end
  the server instead of being answered.
- ClientProtocol.ProtocolClient.SendRequest: leaves out the peek after the write, which blocks until the answer is
  there, and the switch to the secondary server when the write or the peek fails (`src/protocol_client.rs:312-349`).
- Wire.FromSlice: reads what the serializer prints, with white space around it. White space inside values, other
  field orders, empty containers and numeric escapes from U+0080 on are not parsed.
- The exit after the first request of a primary (`src/registry_server.rs:416-420`), a demonstration that would end
  every run.
- Dispatch when ids reach 999 or 1000, which clash with the reserved tokens: excluded by hypothesis.
- End of stream in `receive_message`: a zero-length read makes the loop go round again.
- The textual form of socket addresses: an address is the string the serializer prints.
- The asynchronous client calls (`registry_read` without waiting).
- Data freshness: a grant names the creator even after somebody else wrote; the code makes no other promise.
- `P2PServer`, `DataStore` and the binaries: a locked map behind sockets, demonstrations and benchmarks.
