# Models of the hyper, sled and opendal bindings

A Dafny model of the hand-written code around three C bindings, with proofs of its properties.

**The polling HTTP client** (`lib/rust/hyper/examples/client.c`, `lib/rust/hyper/examples/upload.c`,
`rust/hyper/_demo/hyper_client/hyper.go`). All three run the same two loops: drain the tasks an executor has ready,
switching on a tag kept in each task's userdata, then wait in `select` for the directions that have a waker, and wake
them. `PollLoop.dfy` is that machine as a transition system for the three programs (`ClientC`, `UploadC`, `GetGo`).
Everything hyper, the kernel and the peer decide comes as a sequence of answers of any length: how many read, write,
chunk and file callbacks run in each poll, what each system call returns, which task is delivered when and with which
type, how many background tasks finish, what `select` returns. A run follows the answers as long as they are allowed, so
a statement about all answer sequences is a statement about every reachable state.

* `Ownership.dfy` is a monitor that knows nothing of the programs. It replays the calls that name a handle and turns
  `ok` off at the first use after release, double release, release of something lent, or call on null. Its lemmas say
  what an accepted trace means.
* `LoopAnswers.dfy` spells out what a single answer of each kind leads to and when it may come, straight from the
  sources and without the functions the machine is built from.
* `LoopOwnership.dfy`, `LoopWakeups.dfy`, `LoopProgress.dfy`, `LoopCompletion.dfy` and `LoopSimulation.dfy` hold the
  theorems about runs.
* `HyperLib.dfy`, `Executor.dfy`, `ClientProgram.dfy`, `UploadProgram.dfy`, `GetProgram.dfy` and `Programs.dfy` are the
  programs themselves, with nested loops, objects updated in place and callbacks: the switches are in a file for each
  program, the loops around them, which are the same in all three, in `Programs.dfy`. Each program is proved to end in
  exactly the state the transition system gives, so the theorems hold of it.
* `Streams.dfy` has the shared read buffer of `upload.c` and the growing response buffer of `hyper.go`, on arrays.
* `Connect.dfy` is the loop over resolved addresses.

**The sled wrapper** (`lib/rust/sled/src/lib.rs`, `rust/sled/sled.go`), in `Sled.dfy`: the encodings of absence as null
and as length 0, compare-and-swap, and the leaked buffers.

**The opendal handle heap** (`lib/rust/opendal/bindings/c/src`), in `OpendalHeap.dfy`, `OpendalApi.dfy` and
`OpendalCaller.dfy`: boxes behind boxes, bytes and errors; operators, options and buffers as objects; and a program that
makes any calls in any order and changes or frees its own objects in between, which sees what it would see if all of
them were plain values.

## Assumptions

These are the conditions of `PollLoop.Possible` and `PollLoop.TypesHold`.

* A pushed task is delivered at most once and keeps its userdata; tasks without userdata may be delivered at any time.
* Task types: a handshake yields an error or a client connection, a send an error or a response, a foreach an error or
  nothing, a body-data task an error, a buffer or nothing; an error comes with a value. `MisledExactly` is about
  runs without this assumption.
* The chunks of a response body arrive in order, and the body ends when they have all been taken or its consumer stopped.
* Callbacks run only inside a poll. The request body is asked for only after the request was sent.
* `read` and `write` report at most what they were asked for, and hyper's buffers are shorter than both sentinels
  (`SentinelsExact` says why that bound is the right one). A file read returns 0 exactly at the end of the file.
* `select` leaves a bit set only if it was set on input and returns the number of bits set (POSIX.1-2017, System
  Interfaces, `pselect`/`select`, DESCRIPTION).
* Handshaking consumes transport and options, sending consumes the request, foreach consumes the body, waking consumes
  the waker. A handle is not handed out twice (handles are names, not addresses).
* A response for which an allocation succeeds fits into one address space (`NoRoomAfterWrap` says what fails
  otherwise).
* The assertions of the C programs are enabled.
* `Buffer::to_vec` in opendal returns a vector without spare capacity (`SliceFreeExact` says what fails otherwise).

## Where comments and code differ

* `lib/rust/sled/src/lib.rs:153` says that the pointer for the actual value will be null if there is none. The code
  leaves the pointer alone and writes only the length; Go passes a pointer that is already nil. The model follows the
  code.
* `lib/rust/opendal/bindings/c/src/operator.rs:203` says that the bytes passed to write are consumed. The code copies
  them and leaves the caller's memory to the caller. The model follows the code.

## Model

| member | source | states |
|---|---|---|
| Ownership.EndedExactlyOnce | lib/rust/hyper/hyper.h:488-538 | in a trace without violations, a handle that was handed out and is gone was ended by exactly one call: its release, or the release of the executor that held it |
| Ownership.NothingAfterRelease | lib/rust/hyper/hyper.h:500-538 | in a trace without violations no call after the release of a handle mentions it: no use after free, no double free |
| Ownership.ReleaseWaitsForExecutor | lib/rust/hyper/hyper.h:465-488 | what an executor was lent is released only after that very executor was freed |
| LoopAnswers.ReadAnswer | lib/rust/hyper/examples/client.c:23-42 | one call of the read callback, whatever read returns: the read field, the calls, the one line of history with the number returned; the write field and all else stay |
| LoopAnswers.WriteAnswer | lib/rust/hyper/examples/client.c:44-63 | the same for the write callback and the write field |
| LoopAnswers.FileAnswer | lib/rust/hyper/examples/upload.c:121-141 | n bytes read become the next chunk, exactly the next n bytes of the file; 0 bytes end the request body; an error hands over nothing |
| LoopAnswers.PrintAnswer | lib/rust/hyper/examples/client.c:124-131 | the next chunk of the body is written out |
| LoopAnswers.AppendAnswer | rust/hyper/_demo/hyper_client/hyper.go:306-327 | the next chunk is gathered in a new buffer and the old one freed, or the iteration stops and nothing else changes |
| LoopAnswers.PollAnswer | lib/rust/hyper/examples/client.c:197-200 | a task without userdata is freed; null leads to select |
| LoopAnswers.ReadyAnswer | lib/rust/hyper/examples/client.c:317-325 | select with something ready: exactly the ready directions are woken, reading first, and their fields emptied; then the loop polls |
| LoopAnswers.StopAnswer | rust/hyper/_demo/hyper_client/hyper.go:196-201 | a failing select, in Go also a timeout, ends the program with nothing woken |
| LoopAnswers.ErrorAnswer | lib/rust/hyper/examples/client.c:331-342 | a failed task: the C programs return 1, Get panics; client.c and Get take, read and free the error |
| LoopAnswers.UnbuiltAnswer | lib/rust/hyper/examples/client.c:218-225 | method or URI refused: the C programs return 1 before anything is sent |
| LoopAnswers.ClientConnected | lib/rust/hyper/examples/client.c:202-239 | every call from the delivered handshake to the pushed send task, in order, and the one new task |
| LoopAnswers.UploadConnected | lib/rust/hyper/examples/upload.c:247-296 | the same with the request body and the buffer it reads from |
| LoopAnswers.GetConnected | rust/hyper/_demo/hyper_client/hyper.go:92-120 | the same with the request built before; a failed push panics |
| LoopAnswers.RespondedAnswer | lib/rust/hyper/examples/client.c:240-271 | every call from the delivered response to the pushed body task, in order |
| LoopAnswers.DataAnswer | lib/rust/hyper/examples/upload.c:328-346 | the chunk is written out and freed, and the body lent to the next data task |
| LoopAnswers.EmptyAnswer | lib/rust/hyper/examples/upload.c:347-359 | the order of the cleanup, and return 0 |
| LoopAnswers.MisfitAnswer | rust/hyper/_demo/hyper_client/hyper.go:92-163 | a task of another type, or an error without value: assertion, or Get goes on |
| LoopAnswers.StartAnswer | lib/rust/hyper/examples/client.c:163-188 | every call before the first poll, the one pushed task, everything else empty |
| LoopAnswers.StartRefused | rust/hyper/_demo/hyper_client/hyper.go:35-49 | Get panics before it connects if its request cannot be built |
| LoopAnswers.PollingAnswers | lib/rust/hyper/hyper.h:488-538 | the exact condition for each callback and each delivery while a program polls, numbers written out |
| LoopAnswers.SelectingAnswers | lib/rust/hyper/examples/client.c:299-310 | the exact condition on what select reports |
| LoopOwnership.EveryRunIsSafe | lib/rust/hyper/examples/upload.c:212-359 | every run of each program, for all answers: no call breaks the handle rules (wake on an empty slot included), no assertion fails, Get never goes on after fail(nil); a running program holds exactly the handles its variables name and the executor exactly one tagged task; a successful run ends with nothing live (Get: only its connection record and response buffer) |
| LoopOwnership.FinishLedger | lib/rust/hyper/examples/client.c:284-289 | the cleanup of a successful run, from any state in which the body task is pending, frees executor, wakers and connection data in an order the rules allow and leaves nothing (Get: record and response buffer) |
| LoopWakeups.NoLostWakeup | lib/rust/hyper/examples/upload.c:369-395 | whenever the loop polls or waits: a direction whose callback was blocked, at an answer since which select has not reported it, holds the waker made in that callback and is watched, and a watched direction was left by such an answer; the history of returned numbers and wakeups says the same |
| LoopWakeups.HistoryFollowsAnswers | lib/rust/hyper/examples/upload.c:369-395 | in every run the history is, line by line, what the answers used say: each callback with its own direction and the number for its result, each direction woken |
| LoopWakeups.FailureEndsRun | lib/rust/hyper/examples/client.c:331-342 | a run that is handed a failed task ends there, with 1 in C and a panic in Get; the error client.c and Get took is freed |
| LoopWakeups.LiveWakersAreSlots | lib/rust/hyper/examples/client.c:36-76 | between callbacks the live wakers are exactly those in the two slots, which never share one |
| LoopWakeups.WakersEndOnce | lib/rust/hyper/examples/client.c:303-325 | after a successful run each waker ever made was freed or woken by exactly one call, and no later call mentions it |
| LoopWakeups.HandlesEndOnce | lib/rust/hyper/examples/client.c:284-289 | after a successful run each handle of any kind was ended by exactly one call, but for the two Get leaves behind |
| LoopWakeups.LentWhileRunning | lib/rust/hyper/examples/upload.c:341-343 | while a program runs, connection data, file buffer and the body being pulled are lent and may not be freed; the body is lent to the one pending body task, so it is asked for its next chunk only when no body task is out |
| LoopWakeups.ConnOutlivesExecutor | lib/rust/hyper/examples/upload.c:354-357 | in every run the connection data is released only after the executor it was lent to was freed |
| LoopWakeups.SentinelsExact | lib/rust/hyper/hyper.h:45-53 | every result of a callback with a buffer of this length is read by the executor as it was meant, if and only if the length is below both sentinels |
| LoopProgress.UsedIsAPrefix | lib/rust/hyper/examples/client.c:196-327 | a run uses its answers up to the first one that is not allowed |
| LoopProgress.OneStepEach | lib/rust/hyper/examples/client.c:196-327 | and takes exactly one step for each of them, in order |
| LoopProgress.EveryRunIsInOrder | lib/rust/hyper/examples/upload.c:239-365 | every run: deliveries are a prefix of Handshake, Send, RespBody (one for each chunk and a last one in upload.c), at most one request is sent and at most one tagged task is out, the bytes produced are exactly the chunks taken; success only after the final delivery, with one request |
| LoopProgress.PullAndPushAgree | lib/rust/hyper/examples/upload.c:328-346 | three successful exchanges with one peer, by pulling, printing and gathering, give the same bytes for every interleaving, all of the body |
| LoopProgress.DeliveriesBounded | lib/rust/hyper/examples/client.c:196-295 | no run handles more than 3 tagged tasks (plus one for each chunk in upload.c); a successful one exactly that many, besides the background tasks it was given |
| LoopProgress.UploadIsTheFile | lib/rust/hyper/examples/upload.c:121-141 | for all short reads: there is one chunk for each read that gave bytes, with as many bytes as it gave, and together they are a prefix of the file; the end is reported exactly when a read gave nothing, and then it is the whole file, in at most L and at least L/8192 chunks |
| LoopProgress.MisledExactly | rust/hyper/_demo/hyper_client/hyper.go:355-374 | without the assumption on task types: Get goes on after fail(nil) exactly in the runs that are handed a task of a wrong type or an error without value; the C programs stop at an assertion exactly in the runs that are handed a task of a wrong type |
| LoopProgress.ResponseIsPrefix | rust/hyper/_demo/hyper_client/hyper.go:306-327 | whatever allocations fail, Get's response is a prefix of the body made of whole chunks, all of it unless an allocation failed, and at most one response buffer is live between callbacks |
| LoopProgress.NothingAfterRefusal | rust/hyper/_demo/hyper_client/hyper.go:311-314 | after a failed allocation the response never changes again |
| LoopCompletion.SuccessStaysPossible | lib/rust/hyper/examples/upload.c:239-395 | no program gets stuck: from every state of a run in which it is still running, and with a select that always comes back with something ready, success can still be reached if and only if the request can be built (and pushed) and it does not wait in select with nothing to wait for |
| LoopCompletion.WholeBodyStaysPossible | rust/hyper/_demo/hyper_client/hyper.go:82-212 | and it can be reached with all of the body, for Get unless a chunk was refused already or the body does not fit into its address space |
| LoopCompletion.WholeFileStaysPossible | lib/rust/hyper/examples/upload.c:121-141 | and upload.c can, on the way, still hand over its whole file and report the end |
| LoopCompletion.ContinuedRun | lib/rust/hyper/examples/client.c:196-327 | a continuation of a state a run leads to is a run: the answers used so far and then the others |
| LoopSimulation.GetIsSimulatedByClient | rust/hyper/_demo/hyper_client/hyper.go:82-212 | whenever Get returns a response, client.c with the same answers (less a chunk refused for lack of memory) exits with 0 with the same deliveries, callbacks, wakers, wakeups and bytes |
| HyperLib.ConnData.ReadCb | lib/rust/hyper/examples/client.c:23-42 | the callback frees the waker it replaces, keeps the new one only when blocked, and returns count, error or pending |
| HyperLib.ConnData.WriteCb | rust/hyper/_demo/hyper_client/hyper.go:277-297 | the same for writing |
| HyperLib.ConnData.Free | lib/rust/hyper/examples/client.c:65-76 | both slots are freed if set and emptied; in C the record goes too |
| Executor.StartHandshake | lib/rust/hyper/examples/client.c:163-188 | connection data with empty slots, transport, executor and options are made, and the handshake that takes them is tagged and pushed |
| Executor.Poll | lib/rust/hyper/examples/client.c:197-200 | any number of callbacks runs on the program's objects, then a task or null is returned, in step with the transition system |
| Executor.WaitAndWake | lib/rust/hyper/examples/client.c:299-325 | the watched directions are those with a waker; those ready are woken and emptied; errors (and in Go the timeout) stop the program |
| ClientProgram.CaseHandshake | lib/rust/hyper/examples/client.c:202-239 | the case takes the step of the transition system: error exit, assertion, request that cannot be built, or request sent, client and task freed and one new tagged task |
| ClientProgram.CaseSend | lib/rust/hyper/examples/client.c:240-271 | the case takes the step of the transition system: error exit, assertion, or body handed to a foreach task and response and task freed |
| ClientProgram.CaseBody | lib/rust/hyper/examples/client.c:272-289 | the case takes the step of the transition system: error exit, assertion, or everything released and 0 |
| ClientProgram.Fail | lib/rust/hyper/examples/client.c:331-342 | an error value, if there is one, is read and freed once |
| UploadProgram.CaseHandshake | lib/rust/hyper/examples/upload.c:247-296 | as in client.c, with a request body that reads the file |
| UploadProgram.CaseSend | lib/rust/hyper/examples/upload.c:297-327 | the response body is kept and a first data task that borrows it is pushed |
| UploadProgram.CaseBody | lib/rust/hyper/examples/upload.c:328-359 | a chunk is written, freed and the next one asked for, or everything is released and 0 |
| GetProgram.CaseHandshake | rust/hyper/_demo/hyper_client/hyper.go:92-120 | the case takes the step of the transition system, with the request built before the loop and the push checked |
| GetProgram.CaseSend | rust/hyper/_demo/hyper_client/hyper.go:121-154 | the case takes the step of the transition system |
| GetProgram.CaseBody | rust/hyper/_demo/hyper_client/hyper.go:155-171 | the case takes the step of the transition system |
| GetProgram.Fail | rust/hyper/_demo/hyper_client/hyper.go:355-374 | an error is read, freed once and panics; nil only returns |
| Programs.Client | lib/rust/hyper/examples/client.c:142-343 | main ends in exactly the state the transition system gives for ClientC, for all answers |
| Programs.Upload | lib/rust/hyper/examples/upload.c:167-400 | main ends in exactly the state the transition system gives for UploadC, for all answers and short reads |
| Programs.Get | rust/hyper/_demo/hyper_client/hyper.go:34-213 | Get ends in exactly the state the transition system gives for GetGo; its response holds the accepted chunks in order |
| Streams.FileUpload.PollReqUpload | lib/rust/hyper/examples/upload.c:121-141 | each chunk is a fresh copy of the next bytes of the file; all chunks given away earlier still hold their bytes although the shared buffer was overwritten |
| Streams.HttpResponse.Append | rust/hyper/_demo/hyper_client/hyper.go:306-327 | with memory the response becomes itself plus the chunk, in a fresh buffer with the old one freed; without, nothing changes and iteration stops |
| Streams.NoRoomAfterWrap | rust/hyper/_demo/hyper_client/hyper.go:310-323 | the size asked of malloc leaves room for both copies exactly when the sum of the lengths does not wrap; when it does, not even the old bytes fit |
| Streams.CopyCostExact | rust/hyper/_demo/hyper_client/hyper.go:310-325 | the bytes memcpy has moved for chunks c_0 .. c_{n-1} are exactly the sum of (n - i) * c_i |
| Streams.CopyCostByLength | rust/hyper/_demo/hyper_client/hyper.go:316-325 | at most n times the final length |
| Streams.CopyCostQuadratic | rust/hyper/_demo/hyper_client/hyper.go:316-323 | at most c * n * (n + 1) / 2 when no chunk is longer than c |
| Connect.ConnectTo | lib/rust/hyper/examples/client.c:90-112 | the descriptor of the first address whose socket call does not give -1 and whose connect succeeds, or -1 exactly if there is none; every other descriptor opened on the way was closed as often as it was opened |
| Sled.CallMeaning | lib/rust/sled/src/lib.rs:104-200 | what get, set, delete and compare-and-swap do to the stored values and report, case by case |
| Sled.OpRefines | lib/rust/sled/src/lib.rs:167-199 | one call reports and does what a total map with default "" would, if and only if it is not a compare-and-swap that expects "" on a key holding an empty value |
| Sled.RunRefines | rust/sled/sled.go:112-179 | a sequence of calls reports what a total map with default "" would, if and only if none of them is such a compare-and-swap |
| Sled.RunRefinesByCalls | rust/sled/sled.go:95-179 | the same in the caller's terms, from the calls alone: if and only if no compare-and-swap expects "" from a key that was last set to "" |
| Sled.EmptyIsNotAbsent | lib/rust/sled/src/lib.rs:169-196 | the input that fails: set a key to "", then swap it from "" to anything; the total map would accept, sled refuses and reports "" as the actual value |
| Sled.OnlySetMakesEmpty | lib/rust/sled/src/lib.rs:177-183 | from a store without empty values only setting an empty value makes one; compare-and-swap and delete never do |
| Sled.CarefulRunRefines | rust/sled/sled.go:112-179 | without empty values at the start and in any Set, every run is a run of the total map |
| Sled.SwapsFormChain | lib/rust/sled/src/lib.rs:156-200 | in any history of compare-and-swaps the successful ones on a key form a chain from its first value to its last |
| Sled.DB.GetString | rust/sled/sled.go:112-116 | the string is the value of the key, "" if absent; a non-empty one is in a fresh buffer still to be freed, other buffers are unchanged |
| Sled.DB.SetString | rust/sled/sled.go:95-97 | the store changes as the operation says; no buffer is made |
| Sled.DB.DelString | rust/sled/sled.go:129-131 | the store changes as the operation says; no buffer is made |
| Sled.DB.SledGet | lib/rust/sled/src/lib.rs:122-136 | null and an untouched length for an absent key, else a leaked copy of the value with its length |
| Sled.DB.CASString | rust/sled/sled.go:163-179 | store, result and actual value are those of the operation; a non-empty actual value is in a fresh buffer still to be freed; with nil for the actual value it crashes exactly when there is a value that does not match, and otherwise reports the same |
| Sled.DB.SledCompareAndSwap | lib/rust/sled/src/lib.rs:156-200 | lengths of 0 are absent values; on a mismatch the current value is leaked and the pointer written, also through null, or only the length set to 0 |
| Sled.DB.Free | rust/sled/sled.go:24-26 | a value freed once is freed with exactly the size that was allocated, and only its buffer goes; nothing is live when nothing is owed |
| Sled.BufferCallEffect | lib/rust/sled/src/lib.rs:12-20 | a non-empty value comes in a new buffer of its size, an empty one in none; freeing takes just its buffer |
| Sled.BuffersReturn | lib/rust/sled/src/lib.rs:12-20 | in any run of values handed out and freed by their lengths, every free names exactly the size allocated, and once each non-empty value was freed the live buffers are those of before |
| OpendalHeap.HeapConserved | lib/rust/opendal/bindings/c/src/lister.rs:49-80 | after any run in which each returned handle and error is released once by its own function, exactly the allocations from before are live and each release fitted its allocation |
| OpendalHeap.CallAllocates | lib/rust/opendal/bindings/c/src/types.rs:40-46 | what each kind of call leaves on the heap, and the handle it returns |
| OpendalHeap.PairFreeExact | lib/rust/opendal/bindings/c/src/lister.rs:75-80 | an outer and inner box are released without harm exactly if both are there; a second release is caught |
| OpendalHeap.FreedBlocks | lib/rust/opendal/bindings/c/src/entry.rs:70-75 | in any reachable heap, releasing a held handle removes exactly its box and what is behind it |
| OpendalHeap.SliceFreeExact | lib/rust/opendal/bindings/c/src/types.rs:40-58 | releasing bytes by their length fits the allocation and leaves nothing, exactly when the vector had no spare capacity |
| OpendalApi.Binding.CopyOptions | lib/rust/opendal/bindings/c/src/operator.rs:176-181 | the loop copies the options into a map object of its own, in whatever order it meets them |
| OpendalApi.Binding.OptionsNew | lib/rust/opendal/bindings/c/src/types.rs:92-99 | an empty map behind a new handle |
| OpendalApi.Binding.MakeError | lib/rust/opendal/bindings/c/src/error.rs:104-109 | a new error handle with this message behind it, not among those held before |
| OpendalApi.Binding.OperatorNew | lib/rust/opendal/bindings/c/src/operator.rs:157-196 | an error handle, or an operator with a map of its own that equals the options at construction time |
| OpendalApi.Binding.Write | lib/rust/opendal/bindings/c/src/operator.rs:243-258 | the backend keeps a copy of the bytes as they are at the call in a buffer of its own; nothing is allocated for the caller but an error |
| OpendalApi.Binding.Read | lib/rust/opendal/bindings/c/src/operator.rs:299-323 | a fresh buffer with the bytes last written, or an error handle, never both |
| OpendalApi.Binding.List | lib/rust/opendal/bindings/c/src/operator.rs:619-639 | a new lister over the entries, or an error handle |
| OpendalApi.Binding.Next | lib/rust/opendal/bindings/c/src/lister.rs:49-71 | the entries come in order, each as a new handle or an error; at the end both are null |
| OpendalApi.Binding.Release | lib/rust/opendal/bindings/c/src/error.rs:113-126 | a held handle or error is released with exactly its allocations; when none is held nothing is live |
| OpendalCaller.Caller.Run | lib/rust/opendal/bindings/c/src/types.rs:61-67 | any sequence of fills, overwrites, writes, reads, frees, option settings and listings on objects ends with what the same sequence on plain values gives: no buffer, map or handle is shared by mistake |
| OpendalCaller.ReadsLastWrite | lib/rust/opendal/bindings/c/src/operator.rs:243-323 | in any such sequence a read gives the bytes that were in the caller's buffer at the last successful write to that path |
| OpendalCaller.BytesStay | lib/rust/opendal/bindings/c/src/operator.rs:269-275 | bytes that were read stay what they were until the caller changes or frees them, whatever is written later |
| OpendalCaller.ConfigStays | lib/rust/opendal/bindings/c/src/operator.rs:138-152 | the operator's options stay those of construction, although the caller sets and frees its own |
| OpendalCaller.NamedStays | lib/rust/opendal/bindings/c/src/types.rs:119-147 | in any such sequence each object that is there has its handle, and each handle to bytes its variable |
| OpendalCaller.MemoryStep | lib/rust/opendal/bindings/c/src/types.rs:47-58 | filling, overwriting one byte and freeing change that variable and nothing else |
| OpendalCaller.ServiceStep | lib/rust/opendal/bindings/c/src/operator.rs:243-323 | write and read on values: what is stored, what is read, the error that is reported |
| OpendalCaller.OptionStep | lib/rust/opendal/bindings/c/src/types.rs:119-147 | setting changes the caller's options at this key to this value; freeing takes them |
| OpendalCaller.ListingStep | lib/rust/opendal/bindings/c/src/lister.rs:49-80 | entries come one by one, an error in the place of its entry, then the end |
| OpendalCaller.EnabledExactly | lib/rust/opendal/bindings/c/src/types.rs:85-147 | in every state of a run a step can be taken exactly if what it uses is there and what it makes is not |
| OpendalCaller.OptionIsLastSet | lib/rust/opendal/bindings/c/src/types.rs:119-133 | in any run the caller's options hold each key with the value it was last set to |
| OpendalCaller.ByteIsLastWritten | lib/rust/opendal/bindings/c/src/types.rs:61-67 | in any run each byte of a buffer is the one its owner last wrote there, or the first one |
| OpendalCaller.WriteAndReadBack | lib/rust/opendal/bindings/c/examples/basic.c:24-61 | any bytes can be written to any path and read back |
| OpendalCaller.OpenedEmpty | lib/rust/opendal/bindings/c/src/operator.rs:157-196 | a new operator holds nothing, and the caller's options are those it got |
| OpendalCaller.Live | lib/rust/opendal/bindings/c/examples/basic.c:24-61 | from the first call to the last, for any settings and steps: replies as on plain values, operator options that hold exactly the keys set before construction, each with its last value, and an empty heap once the handles still held are freed |

## Left out

- Error exits of the loops: they end the process without releasing what is held; the ledger is claimed to balance for successful runs only.
- Connected socket and upload file descriptor: the programs never close them.
- Name resolution, printing, response headers and status, `fcntl`, timeouts beyond giving up, and errno beyond EAGAIN or another.
- Failing `malloc` of the connection data and of the upload buffer: the programs do not check it.
- Several consecutive calls that only read one handle are one use of it.
- Connect.ConnectTo: `getaddrinfo` failing is not modelled, and where C returns -1 the Go version panics.
- Programs.Get: what Get does with a value of another type after fail(nil) is not followed further than the state `FellThrough`.
- Values carried by read and write callbacks are counts only; the bytes on the wire belong to hyper.
- Sled methods on byte slices: they differ from those on strings only in the Go type.
- Sled configuration, opening, closing, scanning, iterators and failing operations, which panic.
- Concurrent calls on one sled database are atomic operations in some order.
- opendal calls with a null scheme or path, which panic.
- opendal calls other than new, write, read, list and next: they return the same kinds of handles and errors.
- opendal metadata, capability and error code conversions, entry path and name strings, and the asynchronous runtime.
- OpendalApi.Binding.Read: the backend keeps the bytes last written to each path; which errors a real service returns is given with each call, and so are the entries of a listing.
- Internals of hyper, sled, opendal, tokio and csv are not part of this model.
- The CSV wrapper and the Go binding declarations.
