# Verified model of the CLI's RPC, credential and cache code

A Dafny model of the state machines behind the VS Code CLI and the extension host's log pipe, with
proofs of what they promise. `dafny verify dfyconfig.toml` checks all of it.

| part | source | files |
|---|---|---|
| stream multiplexer: shared stream records, write loops, `remove` racing with both | cli/src/rpc.rs | Streams, StreamsSafety, StreamsEnding, WriteLoop |
| dispatcher and single-task transport loop, run together with the multiplexer | cli/src/rpc.rs, cli/src/msgpack_rpc.rs | Transport, TransportOut, TransportCalls, TransportAnswers, TransportIn, TransportEnd, TransportProgress |
| outgoing calls and their replies | cli/src/rpc.rs | Calls |
| streaming frame decoder over a concrete MessagePack reader and writer | cli/src/msgpack_rpc.rs | MsgPack, MsgPackEncode, Codec |
| keyring entries, credential cell and its fallback to a file | cli/src/auth.rs, cli/src/state.rs | Keyring, Auth, PersistedState |
| recently-used list against the directories of the download cache | cli/src/download_cache.rs | DownloadCache, CacheRetention |
| line buffering and cycle-cutting serialisation | src/bootstrap-fork.ts | LineBuffer, SafeToString, ConsoleText |

## How the model is built

- Concurrent code is a transition system: `Enabled` and `Next` give one step for each critical
  section, each partial write, each channel send and each shutdown; a run is any sequence of enabled
  steps, so a lemma about reachable states is about every interleaving. The lock-protected map is
  also a class (`Streams.StreamMap`) whose methods are proved equal to the functions those steps
  use, and `write_loop` is also the loop it is (`WriteLoop.World.Loop`), proved to be a run of the
  transition system whatever the rest of the program does between its statements.
- Sequential objects are classes with the source's fields. Each method is proved against a function
  of the old state, and the laws are proved about runs of those functions.
- Everything the environment decides is a parameter or an action: which file, keyring or directory
  operation fails, how reads are split, how many bytes a write takes, what handlers and the peer do.
- History (accepted segments, what each pipe received, used names, finished creations) is kept
  beside the state only so that laws can be stated about it.

## What is true only under a condition

- **Keyring round trip.** A string whose length is a positive multiple of the entry step is written
  with a continuation marker on its last entry (cli/src/auth.rs:338-341). On a keyring without older
  entries it is then read as no credential at all. `Keyring.RoundTripIff` gives the exact condition:
  the part after the last full step is not empty and does not end in the marker.
- **Clearing the keyring.** Clearing deletes every entry this process has opened or a read touches,
  a missing one included, and stops at the first it cannot delete (cli/src/auth.rs:354-364).
  `Keyring.ClearableIff`: on a working keyring it succeeds exactly when a string can be read and
  every entry opened before is still there. So clearing an empty keyring is an error, and so is
  clearing after a longer chain was opened and a shorter string stored: `Auth.ClearStuck` is a run
  in which the credential's entry is deleted, the process keeps the value, and every further clear
  fails.
- **Early replies.** A call is sent before its callback is registered (cli/src/rpc.rs:356-362). A
  reply that comes in between is dropped (`Calls.EarlyReplyLost`) and the call stays unanswered until
  another frame carries its id (`Calls.UnansweredStays`); `Calls.ReplyCompletes` says exactly when
  a reply completes a call.
- **Ids.** Stream and call ids come from one wrapping 32-bit counter. Below 2^32 ids they are fresh;
  `StreamsSafety.InsertLosesIff` and `Calls.RegisterDropsIff` say exactly what reuse costs.
- **Lines.** Output is the input's lines exactly when every chunk fits: the unfinished line before it
  and the chunk together have at most 1 MiB characters (`LineBuffer.LinesConserved`). A longer line
  written at once is followed by an empty one (`LineBuffer.LongLineBreaks`). The characters are
  conserved always.
- **"[Circular]".** The comment at src/bootstrap-fork.ts:19 speaks of circular values; the code also
  prints "[Circular]" for an object that is only shared (`SafeToString.SharedIsCut`). It is printed
  exactly when what is reachable is not a tree (`SafeToString.UncutIffTree`).
- **Restarting the download cache.** The list's file is truncated when it is opened and written after
  that (cli/src/state.rs:76-84), and a file that does not parse is read as the empty list. So a
  process stopped between the two forgets every published directory
  (`DownloadCache.StopWhileSaving`), even in a save that would have succeeded.
  `DownloadCache.StopListedIff` gives the exact condition for a stop anywhere in an operation: the
  file is not truncated, or nothing is published; and the operation has not just published a name
  that is new to the list and that it could not save (`DownloadCache.FailedSaveForgets`).
  `DownloadCache.RestartAnywhere` carries this over any run whose last save succeeded, whatever
  saves failed before it.
- **Announced streams.** `register_stream` announces streams before it inserts them
  (cli/src/rpc.rs:458-479). The loop of `start_msgpack_rpc` writes to the wire only afterwards, so a
  peer told of a stream finds it in the table. A connection with a task of its own for writing, as in
  cli/src/tunnels/control_server.rs:591-634, may tell the peer first; its reading task waits for
  `register_stream` before it dispatches anything else (control_server.rs:674-692), so data still
  never meets a missing record. The transport model covers both.
- **Progress of the transport loop.** The loop sends into the bounded channel that it empties itself
  (cli/src/msgpack_rpc.rs:59, 74, 87). `TransportProgress.MainStepsIff`: it can take a step exactly
  when it is not sending while the channel is full. Once it is, it never writes or dispatches
  anything again (`TransportProgress.BlockedForever`); one read with one synchronous request more
  than the channel holds is enough (`TransportProgress.PipelineBlocks`). A connection with a task of
  its own for writing gets on (`TransportProgress.OwnWriterUnblocks`).

## Model

| member | source | states |
|---|---|---|
| Streams.StreamMap.Insert | cli/src/rpc.rs:575-584 | an insert replaces whatever record the id had by an empty, open one that holds the writer |
| Streams.StreamMap.Write | cli/src/rpc.rs:564-573 | the segment joins the end of the queue; a parked writer leaves the record for exactly one new loop; a missing record takes nothing |
| Streams.StreamMap.Remove | cli/src/rpc.rs:543-556 | a parked writer is taken out with its record; otherwise the record stays, marked for its loop |
| Streams.StreamMap.Lock | cli/src/rpc.rs:603-621 | one visit of a write loop: batch, park, end or missing, in the source's order of tests |
| Streams.StepKeepsInv | cli/src/rpc.rs:542-631 | every step of any task, with fresh ids, keeps the invariant of every stream and changes only the stream it works on |
| Streams.RunKeepsInv | cli/src/rpc.rs:542-631 | the invariant holds after every run |
| StreamsSafety.BytesConserved | cli/src/rpc.rs:564-573 | in every reachable state delivered ++ rest of the batch ++ queue is all accepted segments in order; after a broken pipe delivered is a prefix of them |
| StreamsSafety.ExclusiveWriter | cli/src/rpc.rs:543-631 | every writer is parked in its own record, owned by one task, or shut down once, never two of these; no byte is written after the shutdown |
| StreamsSafety.NoLostWakeup | cli/src/rpc.rs:601-621 | a parked writer has an empty queue and is not ended; a record with work has a live loop |
| StreamsSafety.RecordPresent | cli/src/rpc.rs:605-608 | the branch for a missing record is never taken |
| StreamsSafety.InsertLosesIff | cli/src/rpc.rs:575-584 | an insert loses a writer, neither owned nor shut down, if and only if one is parked under the same id |
| StreamsSafety.ReusedIdLosesWriter | cli/src/rpc.rs:575-584 | a run in which inserting an id twice loses the first writer |
| StreamsEnding.RemoveEnds | cli/src/rpc.rs:543-562 | `remove` on any existing record puts the stream in its ending phase with at most two lock visits to go |
| StreamsEnding.EndReached | cli/src/rpc.rs:601-630 | until an ending stream is finished its task can go on, by writing a byte when the pipe works and not by its failure; finished is gone, shut down once, all accepted bytes delivered |
| StreamsSafety.SinksRecordSteps | cli/src/rpc.rs:623-630 | a pipe gets exactly the bytes written to it, fails only by a failed write and is shut down only by a shutdown |
| StreamsEnding.StepsBound | cli/src/rpc.rs:601-630 | the bound in numbers: the bytes and items still to deliver, and six |
| StreamsEnding.EndingBounded | cli/src/rpc.rs:601-630 | over any interleaving without writes to the stream, steps and lock visits taken use up the measure over queue, batch and phase |
| StreamsEnding.EndOfStream | cli/src/rpc.rs:543-630 | after `remove`, whatever else is interleaved: at most two more lock visits, a bounded number of steps, and a working pipe never leaves the task stuck before everything is delivered and shut down |
| WriteLoop.World.Interfere | cli/src/rpc.rs:623-627 | steps of other tasks leave the loop's own task and its pipe as they were |
| WriteLoop.World.WriteAll | cli/src/rpc.rs:623-627 | writing one item in partial writes under interference removes it from the batch; the batch is given up only when the pipe is broken |
| WriteLoop.World.Loop | cli/src/rpc.rs:596-631 | the write loop, under any interference, is a run of the transition system and ends with its writer either parked in its record or shut down once |
| TransportOut.StepKeepsOut | cli/src/rpc.rs:453-523 | every step keeps what the peer was sent of each stream equal to what the task states say |
| TransportOut.WireOrder | cli/src/rpc.rs:453-523 | on every stream the wire carries started, then data of 1 to 4096 bytes, then at most one end, nothing after; the data is a prefix of what the handler wrote, and all of it when an end follows a reader that met no error |
| TransportCalls.StepKeepsCalls | cli/src/msgpack_rpc.rs:71-97 | every step keeps answers, owed answers and phases of all requests in agreement |
| TransportCalls.RequestsAnswered | cli/src/rpc.rs:111-272 | response ids, with those still owed, are as a multiset the ids of all dispatched requests on every path; when all handlers are done they are equal |
| TransportCalls.AnsweredOnceAfterStart | cli/src/msgpack_rpc.rs:71-95 | on the wire a call is answered at most once, with its id; one with streams only after a single announcement that names its request |
| TransportAnswers.RouteAnswers | cli/src/rpc.rs:420-437 | the dispatcher's routes agree with the table of methods: built-in names first, then -1 for an unknown method, 0 for bad parameters, else the handler |
| TransportAnswers.StepKeepsAnswers | cli/src/rpc.rs:111-272 | every step keeps phases, codes and frames of all calls in agreement |
| TransportAnswers.AnswersAreRight | cli/src/rpc.rs:111-272 | in every run the code of every response is the one its request's name, parameters and handler call for |
| TransportAnswers.OutcomesAreHandlers | cli/src/rpc.rs:131-142 | the outcome of a call is what its handler returned, when it returned it |
| TransportAnswers.AnnouncementsAreRight | cli/src/rpc.rs:242-269 | streams are announced for the duplex methods only, as many as registered, naming the request, or 0 without an id |
| TransportAnswers.AnsweredAfterStart | cli/src/msgpack_rpc.rs:85-95 | a request to a duplex method is answered only after its streams were announced |
| TransportIn.StepKeepsIn | cli/src/rpc.rs:275-291 | every step of a run with a conforming peer keeps table, inbox and stream ends in agreement |
| TransportIn.AnnouncedInTable | cli/src/rpc.rs:453-479 | with the single-task loop a stream is in the table before the peer can have been told of it, with a task of its own for writing once its streams are inserted; it stays open there until its `remove` |
| TransportIn.DataMeetsRecord | cli/src/rpc.rs:275-291 | data of a conforming peer never meets a missing record, whichever task writes to the wire: dispatching it appends it to the accepted segments of the stream |
| TransportIn.PeerDataDelivered | cli/src/msgpack_rpc.rs:66-110 | end to end: the pipe of a stream holds a prefix of the data the peer sent on it, and all of it once shut down without failure |
| TransportEnd.StepKeepsEnds | cli/src/rpc.rs:279-285 | the end of a stream is never lost between peer, inbox, its future and the table: every step keeps that |
| TransportEnd.EndedIsDelivered | cli/src/rpc.rs:453-631 | when no end of the stream waits to be carried out and no task owns its writer, whatever other streams and requests do: a stream the peer has ended has no record, its pipe is shut down exactly once, and unless the pipe failed it received all data the peer sent |
| TransportEnd.EndRoute | cli/src/rpc.rs:279-285 | a stream_ended that names a stream, whatever else it carries, is routed to the removal of that stream |
| TransportProgress.MainStepsIff | cli/src/msgpack_rpc.rs:66-110 | the main task can take a step if and only if it is not sending into a full channel |
| TransportProgress.BlockedForever | cli/src/msgpack_rpc.rs:66-110 | a single task sending into a full channel does so for good, in every run |
| TransportProgress.PipelineBlocks | cli/src/msgpack_rpc.rs:71-75 | one request more than the channel holds, in one read, leads there |
| TransportProgress.OwnWriterUnblocks | cli/src/tunnels/control_server.rs:617-625 | with a task of its own for writing one step of that task makes room |
| TransportProgress.ChannelBounded | cli/src/msgpack_rpc.rs:59-59 | the channel never holds more than its capacity |
| TransportProgress.CallSteps | cli/src/msgpack_rpc.rs:77-95 | a handler's future can always go on, and reply if and only if the channel has room |
| TransportProgress.ReaderSteps | cli/src/rpc.rs:483-521 | a reader takes from 1 to 4096 bytes of what there is, stops at the end, and sends if and only if the channel has room |
| Calls.Correlation | cli/src/rpc.rs:342-381 | each callback fires at most once and only for its own id; the pending table is exactly registered minus answered |
| Calls.ReplyCompletes | cli/src/rpc.rs:364-377 | a reply completes a call if and only if it is registered and not yet answered, with the result or error it carries, or with an error of code 0 if its body does not parse |
| Calls.EarlyReplyLost | cli/src/rpc.rs:356-362 | in every reachable state a reply to a call that is sent but not registered changes nothing |
| Calls.UnansweredStays | cli/src/rpc.rs:356-378 | over any run without another frame of its id, such a call stays unanswered and, once registered, pending |
| Calls.FailedSendIsFinal | cli/src/rpc.rs:356-359 | a call whose request cannot be sent is never registered and never answered, in any later run |
| Calls.RegisterDropsIff | cli/src/rpc.rs:361-378 | a registration keeps the pending table right if and only if its id is not pending; otherwise it drops that call |
| Calls.WrappedIdDropsCall | cli/src/rpc.rs:397-400 | after 2^32 ids a new call takes the place of an unanswered one |
| Calls.Caller.NextMessageId | cli/src/rpc.rs:397-400 | the counter wraps at 2^32; taking an id is a step of the transition system |
| Calls.Caller.Send | cli/src/rpc.rs:348-359 | the sending step: an id is used up even when the sender is closed, and otherwise the request is queued |
| Calls.Caller.RegisterCallback | cli/src/rpc.rs:362-378 | the registering step of a call that was sent |
| Calls.Caller.DispatchReply | cli/src/rpc.rs:439-448 | the step of an incoming reply: a pending callback is taken out and fired, an unknown id does nothing |
| MsgPack.BigEndian | cli/src/msgpack_rpc.rs:143-143 | numbers are big-endian, the first byte counts most |
| MsgPack.WholeMarkers | cli/src/msgpack_rpc.rs:143-143 | the markers that carry a small number, string or collection length themselves, by range |
| MsgPack.TableMarkers | cli/src/msgpack_rpc.rs:143-143 | all other markers, as the specification's tables list them |
| MsgPack.TwoByteNumbers | cli/src/msgpack_rpc.rs:143-143 | what numbers of two bytes decode to, unsigned and in two's complement |
| MsgPack.FormatOfPayloads | cli/src/msgpack_rpc.rs:143-143 | what strings and binaries of every size decode to |
| MsgPack.FormatOfExtensions | cli/src/msgpack_rpc.rs:143-143 | what extensions of every size decode to |
| MsgPack.FormatOfArrays | cli/src/msgpack_rpc.rs:143-143 | arrays hold as many values as their number says |
| MsgPack.FormatOfMaps | cli/src/msgpack_rpc.rs:143-143 | maps hold twice as many, keys and entries in turn |
| MsgPack.DecodeStable | cli/src/msgpack_rpc.rs:139-162 | a finished or failed decode does not change when bytes are appended |
| MsgPack.PrefixIncomplete | cli/src/msgpack_rpc.rs:144-150 | every strict prefix of a frame is reported incomplete |
| MsgPack.DecodeExact | cli/src/msgpack_rpc.rs:155-159 | a value depends on exactly the bytes it consumed |
| MsgPackEncode.RoundTrip | cli/src/msgpack_rpc.rs:27-34 | decoding an encoded value followed by anything gives the value and consumes exactly its bytes, for all kinds and sizes of the format |
| MsgPackEncode.Smallest | cli/src/msgpack_rpc.rs:27-30 | every value that can be decoded can be serialised, in no more bytes than it was decoded from |
| Codec.SelfDelimiting | cli/src/msgpack_rpc.rs:139-162 | a strict prefix of an encoded value yields no frame and is kept whole; the full encoding yields one frame and leaves the rest |
| Codec.CutConserves | cli/src/msgpack_rpc.rs:155-159 | frame bytes in order, then the rest, are the input; each frame's bytes decode to its object |
| Codec.CutAppend | cli/src/msgpack_rpc.rs:68-71 | bytes that arrive later do not change the frames already cut |
| Codec.ChunkingInvariant | cli/src/msgpack_rpc.rs:68-71 | however a byte stream is split into reads: same frames, same failure, no byte lost |
| Codec.ValuesArrive | cli/src/msgpack_rpc.rs:176-194 | values serialised one after another all come out, in order, with nothing left, under every split |
| Codec.Receiver.DecodeFrame | cli/src/msgpack_rpc.rs:139-162 | one attempt takes exactly one frame off the buffer, or leaves it alone when incomplete or invalid |
| Codec.Receiver.Receive | cli/src/msgpack_rpc.rs:68-71 | one read and its decode loop do what cutting the whole buffer does |
| PersistedState.Container.LoadOrGet | cli/src/state.rs:46-59 | the cached value, else the file's, else the default, which is then cached |
| PersistedState.Container.Save | cli/src/state.rs:61-86 | the cell holds the new value even when the file could not be written; a new process sees it when the write succeeded |
| PersistedState.Container.Update | cli/src/state.rs:128-133 | the mutator is applied to the current value, and the result is kept in memory whether or not it was persisted |
| Keyring.KeyringStorage.Read | cli/src/auth.rs:308-328 | reads the chain of entries up to the first without the marker, and which entries it opened |
| Keyring.KeyringStorage.Store | cli/src/auth.rs:330-352 | writes the parts in order up to the first refused entry; those before it stay written |
| Keyring.ReadIs | cli/src/auth.rs:308-328 | where a chain of continued entries leads: the texts put together, no entry, or a failure |
| Keyring.FailsIff | cli/src/auth.rs:308-328 | a read fails if and only if the chain leads to an entry that cannot be read |
| Keyring.PartsAre | cli/src/auth.rs:330-345 | part `k` is step `k` of the string, with the marker unless it is an unfinished last one |
| Keyring.PartsCount | cli/src/auth.rs:334-335 | there are as many parts as started steps |
| Keyring.KeyringStorage.Clear | cli/src/auth.rs:354-364 | deletes every opened entry in order up to the first missing or refused one: those before it are gone, all others unchanged; success means all are gone |
| Keyring.StoreThenRead | cli/src/auth.rs:307-352 | a string that meets the condition is read back whatever older, even longer, contents the entries had |
| Keyring.StoreThenLose | cli/src/auth.rs:338-341 | any other string is read as no entry when nothing older follows it |
| Keyring.RoundTripIff | cli/src/auth.rs:307-352 | the round trip holds on every keyring if and only if the part after the last full step is not empty and does not end in the marker |
| Keyring.PartsFit | cli/src/auth.rs:332-344 | every entry written fits the limit |
| Keyring.ClearableIff | cli/src/auth.rs:354-364 | whatever entries were opened before, a working keyring is cleared if and only if a string can be read from it and all those entries are still there |
| Keyring.ClearedIsEmpty | cli/src/auth.rs:354-364 | no string is read after entries were deleted, even from a keyring that fails on some |
| Auth.StepKeepsValid | cli/src/auth.rs:393-442 | on the keyring the fallback is unused and no credentials file exists; from the file there is no way back |
| Auth.CredentialOfRun | cli/src/auth.rs:460-466 | over any run the current credential is the last one stored or successfully cleared since the initial read; the storage switches at most once, using up the fallback |
| Auth.StartsOnFileIff | cli/src/auth.rs:411-437 | a new process uses the file if and only if it is asked to, the file exists, or the keyring cannot be read |
| Auth.StoreSucceedsIff | cli/src/auth.rs:552-571 | a store succeeds if and only if the file can be written, or the process is on a keyring that takes every part |
| Auth.FallsBack | cli/src/auth.rs:560-571 | a store the keyring refuses ends on the file with the fallback used up, and a new process reads the credential from it if it could be written |
| Auth.StaysOnKeyring | cli/src/auth.rs:552-572 | a store the keyring takes writes its parts, changes no other entry and creates no file |
| Auth.StoreSurvives | cli/src/auth.rs:552-574 | after a store whose primary or fallback write succeeded, a new process on the same disk reads that credential |
| Auth.ClearSurvives | cli/src/auth.rs:469-475 | after a clear that succeeded, a new process reads none |
| Auth.RestartAfterStore | cli/src/auth.rs:552-574 | the same after any run of the process, through a newly started object |
| Auth.RestartAfterClear | cli/src/auth.rs:469-475 | the same after any run of the process, for a clear |
| Auth.ClearSucceedsWhen | cli/src/auth.rs:469-475 | with any faults: on the file if and only if it can be written, on the keyring if and only if every known entry can be deleted |
| Auth.ClearSweeps | cli/src/auth.rs:354-362 | after any run, a clear that succeeds on the keyring leaves no entry the process has ever known of |
| Auth.NoPartLeft | cli/src/auth.rs:330-362 | so no part of anything stored in the run is left |
| Auth.ClearSucceedsIff | cli/src/auth.rs:469-475 | on a working keyring: if and only if a string can be read and all entries opened before are there |
| Auth.ClearStuck | cli/src/auth.rs:330-364 | a run in which a credential is stored and readable, clearing it deletes its entry and fails, the process keeps the value, and clearing again fails without any effect |
| Auth.Auth.Begin | cli/src/auth.rs:393-442 | which storage is chosen at first use, and the initial read |
| Auth.Auth.StoreCredentials | cli/src/auth.rs:552-574 | the whole new state, fallback to the file included, and whether a write succeeded |
| Auth.Auth.ClearCredentials | cli/src/auth.rs:469-475 | the last value is reset only when the storage was cleared |
| Auth.Auth.GetCurrentCredential | cli/src/auth.rs:460-466 | returns the last value and changes nothing once started |
| DownloadCache.CacheRun | cli/src/download_cache.rs:52-138 | over any run the list is exactly the most recently used names in order, without duplicates; every published directory is in it; both exceed five only by failed evictions |
| DownloadCache.UseOfStep | cli/src/download_cache.rs:52-117 | exactly the operations that count as a use put the name first and make it the last used; a deletion takes it out of list and directories; no operation changes the use of another name |
| DownloadCache.TouchSpares | cli/src/download_cache.rs:119-136 | a touch never evicts the name it touches nor a staging directory |
| DownloadCache.CreateKeeps | cli/src/download_cache.rs:78-117 | a creation, failing anywhere, keeps list and directories in agreement |
| DownloadCache.CreatesIff | cli/src/download_cache.rs:87-117 | when exactly a creation succeeds, and that otherwise the name is not published or was before |
| CacheRetention.RecentIsKept | cli/src/download_cache.rs:119-136 | an operation on another name keeps a cached name, its directory and its tree, while fewer than five names have been used after it |
| CacheRetention.WorkingSetIsKept | cli/src/download_cache.rs:119-136 | over any run a working set of five names stays cached, whatever fails |
| CacheRetention.NothingNewer | cli/src/download_cache.rs:119-124 | right after its use no name is newer, so four others may follow |
| CacheRetention.AtMostOneEvicted | cli/src/download_cache.rs:126-135 | a deletion takes no other directory, a use at most one and only when five names are in the list; all that stays is unchanged |
| CacheRetention.DeletesIff | cli/src/download_cache.rs:63-72 | when exactly a deletion succeeds, that it takes its name only, and that a failed one changes nothing |
| CacheRetention.FailuresAreReal | cli/src/download_cache.rs:130-134 | only a directory that was to be evicted and could not be removed counts as a failed eviction |
| DownloadCache.LogOfOrder | cli/src/download_cache.rs:119-124 | any list without duplicates is the recency order of some history, so runs may start from a file |
| DownloadCache.ChangesApply | cli/src/download_cache.rs:52-138 | the single changes of the disk an operation makes, truncating and writing the list apart, add up to what the operation does to directories and file |
| DownloadCache.StopAnywhere | cli/src/download_cache.rs:87-117 | stopped after any of its changes an operation has published nothing new and changed nothing published; only the last change of a creation publishes, and then its full result |
| DownloadCache.PublishedTree | cli/src/download_cache.rs:93-97 | what a creation publishes is the last tree of its `do_create`, and owes nothing to an earlier staging directory when cleanup succeeds |
| DownloadCache.RunStopsWhole | cli/src/download_cache.rs:78-117 | stopped anywhere in any run, every published directory holds the full result of a `do_create` that returned Ok |
| DownloadCache.StopState | cli/src/state.rs:76-84 | the disk at every stop of an operation: before the save, with a truncated file, after the save, after the rename |
| DownloadCache.StopListedIff | cli/src/state.rs:51-86 | stopped anywhere in an operation, a restart finds every published directory listed if and only if the file is not truncated or nothing is published, and no name new to the list was published unsaved |
| DownloadCache.RunFinds | cli/src/state.rs:51-86 | after any run, whatever saves fail, a restart finds the list of the last save that opened the file, the empty one if that save was cut |
| DownloadCache.SavedRun | cli/src/state.rs:61-70 | when the last save of a run succeeded, the file holds the list in memory whatever saves failed before |
| DownloadCache.RestartAnywhere | cli/src/download_cache.rs:99-114 | stopped anywhere after any run whose last save succeeded: the list found is the one in memory before or after the stopped operation, in the order of real use and within the bound of real failed evictions, or empty in a truncated file; the exact condition above; and then the new cache is in order |
| DownloadCache.StopWhileSaving | cli/src/state.rs:76-84 | a stop between truncating and writing the file leaves a published directory unlisted; one step later it is listed |
| DownloadCache.FailedSaveForgets | cli/src/download_cache.rs:99-103 | after a save that failed, a restart finds a published directory that is not in its list |
| DownloadCache.DownloadCache.TouchName | cli/src/download_cache.rs:119-139 | the in-memory list and the directories after a touch, whether or not the list could be persisted; eviction, truncation and writing in order |
| DownloadCache.DownloadCache.Exists | cli/src/download_cache.rs:52-60 | tells whether the directory exists and marks it as used only then; every change of the disk in order |
| DownloadCache.DownloadCache.DeleteName | cli/src/download_cache.rs:63-72 | directory and list entry go together, unless the directory cannot be removed; every change of the disk in order |
| DownloadCache.DownloadCache.CreateName | cli/src/download_cache.rs:78-117 | the whole new state, and every change of the disk in order: cleanup, staging directory, the steps of `do_create`, eviction, saved list, rename |
| DownloadCache.DownloadCache.RenameStaging | cli/src/download_cache.rs:102-114 | the rename is tried 21 times and moves the whole tree or nothing |
| LineBuffer.OutputConserved | src/bootstrap-fork.ts:126-132 | emitted pieces with the newlines they stand for, then the buffer, are the input; the buffer has no newline and at most 1 MiB characters |
| LineBuffer.NoOverflowIff | src/bootstrap-fork.ts:126-132 | a buffer overflows if and only if some chunk is too long for the unfinished line of the input before it |
| LineBuffer.LinesConserved | src/bootstrap-fork.ts:126-132 | emitted lines then buffer are the lines of the whole input if and only if every chunk fits |
| LineBuffer.LongLineBreaks | src/bootstrap-fork.ts:128-131 | a line above the limit written in one chunk comes out followed by an empty line |
| LineBuffer.ChunksDoNotMatter | src/bootstrap-fork.ts:126-132 | two ways to cut the same input into chunks that fit give the same lines and buffer |
| LineBuffer.WrappedStream.Write | src/bootstrap-fork.ts:126-135 | one write: what reaches the console, what stays buffered, and the call to the original |
| SafeToString.ExpandsReachableOnce | src/bootstrap-fork.ts:53-65 | on any finite graph the walk expands exactly the reachable objects, each once |
| SafeToString.SeenIsExpanded | src/bootstrap-fork.ts:56-61 | the seen list is the list of expanded objects, without duplicates |
| SafeToString.WalkPrints | src/bootstrap-fork.ts:53-65 | the output follows the graph: every link is expanded with all its children or printed as "[Circular]" |
| SafeToString.UncutIffTree | src/bootstrap-fork.ts:53-65 | nothing is printed as "[Circular]" if and only if every reachable object is linked to from one place only and the argument from none |
| SafeToString.SharedIsCut | src/bootstrap-fork.ts:56-59 | a graph without cycles in which an object used twice is printed as "[Circular]" |
| SafeToString.PlainUnlessShared | src/bootstrap-fork.ts:53-65 | on a tree the output is that of plain serialisation; anything else makes plain serialisation fail on a cycle or expand an object twice |
| SafeToString.Serializer.Stringify | src/bootstrap-fork.ts:53-65 | serialisation with its own stack check never raises the cycle error, and does what the walk does |
| SafeToString.ArgumentsToString | src/bootstrap-fork.ts:21-71 | the text of the walk from the argument array, or the fixed notice above 100000 characters |
| ConsoleText.TextReads | src/bootstrap-fork.ts:53-65 | the text of any output, read back as JSON, is the tree of what was printed, followed by whatever follows it |
| ConsoleText.ItemAt | src/bootstrap-fork.ts:53-65 | item `i` of an array is child `i`, `null` if JSON leaves it out |
| ConsoleText.FieldsAround | src/bootstrap-fork.ts:53-65 | an object has a field for each child with a text, in order, and none for the others |
| ConsoleText.WalkReads | src/bootstrap-fork.ts:53-65 | the same for the text of every walk, the whole text being read |
| ConsoleText.ArgumentsRead | src/bootstrap-fork.ts:26-65 | a console message reads back as a list with one item for each argument: "undefined", an error's stack or else its text, a plain value, `null`, or the tree printed for an object |

## Left out

- Fairness of the scheduler: which of the enabled steps comes next is left open, and that every task gets its turn is not assumed.
- The end of a connection: shutdown, write errors on the wire and sends that fail afterwards; runs cover a live connection.
- The duplex pipe's capacity of 8192 bytes: pipes accept any amount, and a reader may fail at any time, which allows more runs than the source.
- Response frames without an id: the source panics on them (cli/src/rpc.rs:440, 445), so a reply carries one here.
- Decoding into a particular type: frames are generic MessagePack values, so a type mismatch, invalid UTF-8 in a string and the depth limit of the library are not modelled.
- Parsing of method parameters: how the body of a frame parses is part of the frame; values of results and messages of errors are reduced to their codes and the outcome of the handler.
- RPC over JSON lines (cli/src/json_rpc.rs), the singleton lock and the named pipes: their logic is in libraries or repeats the transport loop.
- HTTP, OAuth, prompts, clocks and encryption in cli/src/auth.rs: the sealed text is an input of the store, `unseal` a function.
- The thread and timeout around the keyring on Linux, and other processes that change keyring, file or directories at the same time.
- Sealed strings outside ASCII, which the source slices by bytes.
- The file system below names: directories are trees stored under single path components, removal and rename are atomic, file modes are ignored.
- DownloadCache.CacheRun: whole operations one after another; two creations of one name interleaved at the rename can publish a directory that is not in the list.
- Getters, `toJSON`, RegExp, Date and BigInt values, quoting of JSON strings (texts of plain values and keys are given as JSON words), and the error branch they can reach at src/bootstrap-fork.ts:72-74.
- Decoding of stream chunks from bytes to characters: chunks are strings.
- Migration and paths of the launcher in cli/src/state.rs.
