# A model of the concurrent Go build cache server

gobuildcache is a GOCACHEPROG server: it reads GET, PUT and close requests from the Go command, keeps entries in a
local directory that the Go tools read directly, and copies them to a remote store. Handlers run concurrently, several
processes may share one directory through file locks, and an upload may outlive the lock under which it was started.
This project models that server in Dafny and proves what its comments promise: no torn entry, one operation per key,
answered paths that stay valid, a close that drains, and a remote round trip.

## How the project is built

- `Protocol` is the step machine. A label names the next action (a handler, an upload goroutine, the goroutine in
  `Run`, or a kill) and resolves every choice of the environment: which system call fails, how many bytes of a write
  reach the disk, what the clock says. A PUT is a chain of single file actions; the process can be killed between any
  two. `Config` holds the codecs, the remote mode (read-only, synchronous, asynchronous with a capacity) and which calls
  may fail. Theorems about runs quantify over all label sequences, all numbers of processes and all request lists.
- `Exclusion`, `Safety`, `Sources`, `Origins`, `TornReads`, `Uploads`, `Overlaps`, `Provenance`, `RemoteBlind`,
  `Invisible`, `ReadOnlyRuns`, `Drain`, `Tally`, `Close`, `Answers`, `Replies`, `Promised`, `Liveness`, `Timeouts` and
  `EndToEnd` prove the run theorems; `Solo` builds the concrete runs that show where a promise fails. `Spec` is the
  atomic first-write-wins map with its answers, and `Refinement` the forward simulation onto it. What the theorems say
  of values is written out apart from the machine's own functions: `Protocol.StoresBody`, `FillsIn`, `Sends` and
  `Reports` say which bytes a PUT stores, what a remote object fills in, what is uploaded and what an answer tells. `LockedSection` states what the locked callback does to its files, on the remote object
  it saw, as one relation, and proves it of every handler under every interleaving.
- `Hex`, `Decimal`, `Text`, `MetadataText`, `Base64`, `Framing` and `S3` are the codecs; `Paths` and `FlatDisk` connect
  the per-action view of the disk to a map of path strings; `Deployment` shows that the program's own metadata file
  meets the one assumption, `Sound`, under which the run theorems are stated. They assume nothing about the compressor,
  except the round trip from one server to another.
- `LocalCache`, `Server`, `AsyncWriter`, `MemLock.Group`, `S3.Bucket`, `Framing.Reader`, `Output.Writer` and
  `Counters.SeenActionIDs` are the code itself, as classes and loops. The environment of `Server` keeps a record: failed
  file calls are counted, and the lock and the bucket log their calls. So the contracts of `Server.CacheProg.HandlePut`
  and `HandleGet` (`PutDid`, `GetDid`) say exactly how a handler must end given which calls failed; from them follows
  `LockedSection.Outcome`, the relation the step machine's handlers meet as well.
- `MemLock`, `Output` and `Counters` are three small step machines of their own: lazily created mutexes, which refine the
  lock table of `Protocol`; the buffered writer on stdout, which `Stdout` feeds with the answers of `Protocol`; and the
  statistics counters.

Verify everything with `dafny verify dfyconfig.toml`.

## What was found

- No entry is ever torn, under two conditions. Torn means that readable metadata has no data file, or one of another
  size, or that data, size, output ID and time do not all come from one write (`Protocol.CrashSafe`). The first
  condition is that reads of existing metadata succeed: `localCache.check` (localcache.go:211-242) treats every error as
  a miss, so a handler overwrites the data file of a readable entry, and a kill before the metadata rename leaves old
  metadata over new data. `TornReads.TornEntry` is such a run with a wrong size, and `TornReads.MixedEntry` one with the
  right size and the wrong output ID. The second concerns sizes only: a raw fill believes the size that the remote store
  states (server.go:605-617, pkg/backends/s3.go:147-173), so an object with a wrong one becomes an entry with a wrong
  one although every call succeeds (`TornReads.UnfitFill`). What this server uploads always has the right size.
  `TornReads.CrashSafeIff` shows that there is no third condition, remote store by remote store, for directories that do
  not have wrong sizes to begin with.
- The promise at pkg/backends/backend.go:14-18, no two operations of one kind for one action in flight, is not kept by
  asynchronous puts when a written entry cannot be found again, because its metadata cannot be written or read back or
  because its output ID is empty: the lock is released, the next PUT misses, and a second upload starts beside the
  first (`Overlaps.TwoPuts`). `Overlaps.NoOverlapIff` and `Overlaps.NamedNoOverlapIff` say exactly when the promise
  holds, over all runs and over those with non-empty output IDs; `Overlaps.CalledOnceIff` says exactly when no action
  is handed to the backend twice at all.
- A GET or PUT without an action ID is accepted by readRequest and panics in actionIDToPath (localcache.go:250).
  `Liveness.PanickingGet` is the shortest run in which a request is never answered; `Liveness.AnswersIffKeyed` says that
  all maximal runs answer everything exactly when no process has such a request before its first close.
- Remote puts are invisible to clients exactly under the conditions of `Invisible.MirroredIff` and
  `Invisible.OnePutMirroredIff`: what was put must be found locally, or never arrive, and bodies must compress.
- A PUT that finds readable metadata ignores its own body and output ID (server.go:412-417): first write wins.
- A PUT with a negative BodySize is stored with that size and no bytes (server.go:421, 435). `Protocol.Fits` says so;
  for sizes from zero on it means that the data file has exactly the stated length.
- An empty output ID is written but never reads back (localcache.go:132-134); `MetadataText.ParsePrint` has it as a case.
- The comment at localcache.go:175-180 supposes that the renames are unnecessary. For the metadata file the rename is
  essential: `MetadataText.CutFileMisreadsIff` says for which records some strict prefix of the file parses as another record.
- The compression setting is not part of the remote key (server.go:769-771). `EndToEnd.OtherSettingServes` says what a
  server with the other setting answers: a plain one serves compressed bytes as if they were the output, a compressing
  one fails on bytes that do not decompress.
- Object keys of deployments with different prefixes never coincide, even where one prefix continues the other
  (`S3.DeploymentsAreApart`): every key goes on with the hexadecimal form of "v2", which cannot occur later in a key.
- Lock timeouts, and the killing of a process that holds locks, harm none of the theorems: both may happen in every run.

## Assumptions

- LZ4, in `EndToEnd.UploadsAreServed` only: what compression succeeds on is decompressed to itself, and is not made
  empty (`Protocol.Lossless`). Compression may add bytes, as LZ4's frames do, and may return an error;
  `Deployment.FramesAreLossless` is a codec of that kind.
- JSON: each value prints as one non-blank line that parses back (`Framing.Faithful`).
- In the directory a run starts from, readable metadata has a data file. Anything else is allowed: leftover temporary
  files, data without metadata, wrong sizes. About the remote store a run starts from nothing is assumed. Theorems that
  need more say so (`FilesFit` and `FillsFit`: sizes; `Named`: output IDs; `Uploadable`: bodies that compress).
- A rename replaces its target in one step, and a crash is the death of a process, not of the machine.
- A deployment wraps error injection inside the asynchronous writer inside debug output (main.go:445-475), so injected errors are
  failures of the inner put and of the get.

## Model

| member | source | states |
|---|---|---|
| Exclusion.OneHandlerPerAction | server.go:63-72 | in every run, at most one handler of all processes together is inside the callback for an action ID |
| Exclusion.StepKeepsBase | server.go:408-505 | every action, failure and kill keeps: the lock table names exactly the handlers inside their callback, and every handler belongs to a live process |
| Safety.StepKeepsInv | localcache.go:89-103 | every single action of anybody keeps the invariant behind the theorems and leaves every readable entry as it was |
| Safety.RunKeepsInv | server.go:419-440 | so does every run, of any length and interleaving, with kills anywhere |
| Sources.RemotesAreWhole | server.go:461-481 | in every run, whatever fails, each remote object was there at the start or is the upload of one PUT: its output ID, its size and the first BodySize bytes of its body, compressed where that is asked for |
| Sources.BodyIsTaken | server.go:419-437 | a PUT that found nothing takes exactly the first BodySize bytes of its body, with its output ID, its size and the time the clock shows; it fails exactly when the body is shorter |
| Origins.EntriesAreWhole | server.go:419-440 | after any run, with failing metadata writes and kills anywhere, whatever can be read locally has a data file and is the whole of one write: an initial entry, what one PUT brought (output ID, size and the bytes of its body), or what one remote object fills in |
| Origins.CrashSafety | localcache.go:153-186 | if the sizes in the directory and in the remote store fit at the start, no reachable state has a torn entry, in size or in origin |
| Origins.RestartIsInit | localcache.go:89-103 | however a run ended, fresh processes on the files and remote store it left start from what the theorems assume, and sizes that fitted at the start still fit |
| Origins.AnsweredPathsAreStable | server.go:543-555 | after an answer that was backed by metadata, no later action of anybody changes the data behind its path, nor its metadata, and both are from one write |
| Promised.SuccessIsPromised | server.go:412-444 | with metadata reliable and output IDs non-empty, every successful PUT and every GET hit is backed by metadata |
| Promised.AnsweredPathsKeepTheirBytes | server.go:494-504 | so the path of every such answer keeps one write's bytes for ever, with metadata that repeats what a GET was told |
| TornReads.TornEntry | localcache.go:211-239 | if a read of existing metadata may fail, some run over any remote store ends with metadata whose size is not that of the data |
| TornReads.MixedEntry | localcache.go:211-239 | and some run with an entry of the right size whose data and output ID are from different writes |
| TornReads.UnfitFill | server.go:605-617 | with every call succeeding, a GET turns a remote object into a local entry with the size the object states, right or wrong |
| TornReads.CrashSafeIff | localcache.go:150-242 | over a given remote store, and directories without wrong sizes, no run has a torn entry if and only if metadata reads do not fail and every object that fills a readable entry has the size it states |
| Refinement.BehavioursGrow | server.go:412-417 | over a whole behaviour of the specification no local entry is changed or lost and no answer taken back |
| Refinement.StepRefines | server.go:408-637 | forward simulation: every action is one atomic move of the first-write-wins map over a remote map, the sending of the answer to a finished operation included, or is invisible |
| Refinement.LocalChangesUnderLock | server.go:408-440 | a local entry appears only through a handler inside its callback that holds the lock |
| Refinement.RunRefines | server.go:160-251 | every run, seen through the abstraction, is a behaviour of the first-write-wins map |
| LockedSection.AdvanceStage | localcache.go:150-207 | each system call of the callback takes the files one stage further from what the callback found |
| LockedSection.CallbackIsAtomic | server.go:408-495 | whatever others do meanwhile, the files at the end of a callback, the files it found and its result are related as if it had run alone, on a remote object that was there at some moment in between |
| Uploads.BackendContract | pkg/backends/backend.go:14-18 | with metadata writes and reads succeeding, each action ID is handed to the backend at most once over all processes, and no two puts or gets of one action ID overlap |
| Overlaps.TwoPuts | pkg/backends/async_backend.go:43-88 | when a written entry may not be found again, two processes hand one action to the backend twice, and with asynchronous puts both uploads are in flight at once |
| Overlaps.NoOverlapIff | pkg/backends/backend.go:14-18 | over all runs, puts of one action and gets of one action never overlap if and only if puts are not asynchronous or have no slots |
| Overlaps.NamedNoOverlapIff | localcache.go:132-134 | over runs with non-empty output IDs, if and only if that or metadata can always be written and read |
| Overlaps.CalledOnceIff | server.go:480-481 | no action is handed to the backend twice over the life of a directory if and only if the server is read-only; with non-empty output IDs, or metadata can always be written and read |
| Provenance.RemoteFollowsLocal | server.go:461-481 | whatever a run changed in the remote store is exactly the upload of the entry readable locally under that action ID |
| RemoteBlind.RunShown | server.go:447-494 | a run in which no handler sees what the run itself put, and no compression fails, is with its remote steps left out a run of the read-only server, ending in the same state |
| Invisible.RemoteWritesNeverShow | server.go:447-494 | with metadata reliable, output IDs non-empty and bodies that compress, files and all responses are those of the read-only server, whatever remote puts do |
| Invisible.MirroredIff | server.go:540-560 | for bodies that compress, all runs are mirrored by the read-only server if and only if puts never arrive; with non-empty output IDs, if and only if that or metadata can always be written and read |
| Invisible.OnePutMirroredIff | server.go:461-468 | the runs of a server that is told one PUT are mirrored if and only if its body compresses, where it is to be compressed |
| ReadOnlyRuns.ReadOnlyRunsAreShown | server.go:447-454 | for every read-only run and every mode some run in that mode shows as it, with the same files and answers |
| Invisible.ModesAgree | pkg/backends/async_backend.go:45-50 | two servers differing only in remote mode, under the same visible schedule, give equal files and equal responses |
| Drain.WriterConserved | pkg/backends/async_backend.go:45-79 | slots in use are callers about to spawn plus goroutines yet to release, at most the capacity; started puts are succeeded, failed or under way; wait group zero means every slot is back |
| Drain.CallTakesFreeSlot | pkg/backends/async_backend.go:43-50 | a handler that calls the asynchronous writer goes on at once: with a slot if fewer than the capacity are in use, and turned away if not |
| Drain.TurnedAwayIffFull | pkg/backends/async_backend.go:37-50 | in every run a put is turned away exactly when callers about to spawn and goroutines yet to release fill the capacity |
| Tally.CountersTellOutcomes | pkg/backends/async_backend.go:66-85 | in every run successes and failures are what the inner backend has returned as each, less the goroutines about to count; with the wait group at zero, exactly that |
| Drain.JobMoves | pkg/backends/async_backend.go:61-85 | a started goroutine can always take its next step |
| Close.CloseDrains | pkg/backends/async_backend.go:98-108 | before a close is answered the inner backend was closed, and before that every accepted put reached it exactly once |
| Answers.OneResponsePerRequest | server.go:186-228 | a process that finished has answered the requests it read, with multiplicity, and a close response comes last |
| Replies.ResponsesAreWellFormed | server.go:388-660 | in every run each response has its request's ID and its kind's form: a PUT a path or an error, a GET a hit, a miss, or a miss with an error, an unknown command an error; a path is that of the request's own action |
| Liveness.NeverStuck | server.go:167-251 | in every non-final state satisfying the invariant some action other than a kill is possible, if no GET or PUT without an action ID comes before the first close |
| Liveness.StepShrinks | server.go:167-251 | a measure over requests, handlers, uploads and bytes still to write falls with every action |
| Liveness.NoEndlessRun | server.go:167-251 | there is no infinite run |
| Liveness.MaximalRunsAnswerAll | server.go:160-251 | under the same condition a run that only a kill could continue has answered every request of every process that lives |
| Liveness.AnswersIffKeyed | localcache.go:247-253 | every maximal run answers every request of every process that is not killed if and only if no process has a GET or PUT without an action ID before its first close |
| Liveness.PanickingGet | localcache.go:250 | the run of one process with one such GET, which ends with the process waiting for a handler that never answers |
| Timeouts.TimeoutRunsNothing | pkg/locking/fslock.go:52-63 | a handler whose lock request times out changes no file, remote object, lock or upload in its whole life, and answers with the timeout error |
| EndToEnd.GetsServeTheRecord | server.go:560-636 | on a server that has no local entry and never PUTs the action, every GET of it in every run fails or is a hit with what the remote object fills in, and the file it names has those bytes |
| EndToEnd.OtherSettingServes | server.go:769-771 | with the other compression setting every such GET fails or is a hit on what the PUT's stored bytes are taken for, and on the PUT's own entry exactly when that is the same |
| EndToEnd.UploadsAreServed | server.go:583-636 | with the same setting every GET of a remote object that the first server's run wrote fails or is a hit with the output ID and size that one PUT stated and the bytes of its body, first time and every later time; on the first server anything may fail, and no assumption is made on output IDs |
| EndToEnd.OwnEntryIsServed | server.go:439-481 | if the first server's metadata is reliable and output IDs are non-empty, that is the entry it can itself read when its run ends |
| MetadataText.ParsePrint | localcache.go:84-145 | printed metadata reads back as itself for every non-empty output ID and all int64 sizes and times, and never for an empty one |
| MetadataText.FileRoundTrip | localcache.go:84-145 | the same of the file's bytes |
| MetadataText.LayoutDoesNotMatter | localcache.go:116-145 | order, padding, repetition and lines with other prefixes do not change what is read |
| MetadataText.CutFileMisreadsIff | localcache.go:95-100 | some strict prefix of a metadata file parses as a different record if and only if the output ID has several bytes, or size or time is not zero |
| MetadataText.FormatIsInjective | localcache.go:84-87 | different records have different files |
| MetadataText.FormatIs | localcache.go:84-88 | the file byte for byte: three lines, outputID: in hexadecimal, size: and time: in decimal |
| MetadataText.LaterLine | localcache.go:116-139 | a later size or time counts, one that is not a number leaves the earlier, and a later output ID replaces the earlier or, if it is not hexadecimal, makes the file unreadable |
| Hex.DecodeEncode | localcache.go:136 | hex decoding undoes encoding |
| Hex.Injective | server.go:407 | different action IDs have different hex keys |
| Hex.EncodedAt | localcache.go:248 | byte i becomes the lower-case digits at 2i and 2i+1, the high half first |
| Hex.DecodeIs | localcache.go:136-139 | exactly the strings of an even number of digits of either case decode, two digits to a byte |
| Decimal.ParsePrint | pkg/backends/s3.go:158 | decimal parsing undoes printing for every int64 |
| Decimal.ParseIntIff | pkg/backends/s3.go:158-170 | ParseInt takes exactly the texts that are a sign or none, any zeros and the digits of a number that fits in 64 bits |
| Decimal.PrintSpells | pkg/backends/s3.go:107-108 | what is printed has no plus sign and no leading zeros |
| Decimal.ScanPrint | localcache.go:126 | the scanner reads a printed number through leading blanks and stops at the first other character |
| Deployment.RealConfigIsSound | localcache.go:80-146 | the program's own metadata codec, with any compressor, meets the assumption of all run theorems |
| Deployment.FramesAreLossless | server.go:795-822 | a codec that puts a header before the bytes, and fails when the result gets too long, meets the assumption on LZ4 |
| Deployment.OwnLockPerAction | server.go:407-408 | with locks named by the hex key, different action IDs take different locks |
| Deployment.SharedLockIsCollision | pkg/locking/fslock.go:48-50 | two action IDs share a lock file if and only if their key hashes collide |
| Paths.FilePathInjective | localcache.go:247-258 | data, tmp, meta and meta-tmp paths determine action ID and kind: no two coincide |
| Paths.FilePathIs | localcache.go:247-258 | every file of an action is in the directory named by the two digits of its first byte, one of the 256 that newLocalCache makes, under v2, the action ID in hexadecimal, and its suffix |
| Paths.CallView | localcache.go:89-103 | a system call on one path changes the view of its own action as the model says, and no other view |
| FlatDisk.RunRepresents | localcache.go:150-207 | over every run a disk of plain paths stays in agreement with the per-action views |
| FlatDisk.CrashSafeOnDisk | localcache.go:153-186 | if P.meta parses after a run, P exists, it has the stated size if the remote sizes fit, and the two files make up one write's entry |
| S3.PutThenGet | pkg/backends/s3.go:87-173 | a put fails by itself exactly on a short body, and a get decodes the object to the record that was put |
| S3.PutIsRecord | pkg/backends/s3.go:235-241 | a put changes the record of its own action ID only |
| S3.BackendKeyInjective | server.go:769-771 | different action IDs have different backend keys |
| S3.ObjectKeyInjective | pkg/backends/s3.go:235-241 | different backend keys have different object keys under one prefix |
| S3.PrefixComesFirst | pkg/backends/s3.go:235-241 | an object key is the prefix and then the hexadecimal form of v2 and the hexadecimal action ID |
| S3.DeploymentsAreApart | pkg/backends/s3.go:235-241 | two deployments share an object if and only if prefix and action ID are the same, even where one prefix continues the other |
| S3.ObjectIs | pkg/backends/s3.go:87-117 | the object a put stores: the body, and output ID, size and time as text in the fields outputid, size and time |
| S3.DecodeIff | pkg/backends/s3.go:147-173 | an object is a hit exactly when its size and time are there and spell 64-bit numbers and its output ID is hexadecimal or missing |
| S3.Bucket.Put | pkg/backends/s3.go:87-125 | a call is logged; on success the object is stored under its key and nothing else changes; a call that the service fails has changed nothing or stored the object all the same |
| S3.Bucket.Get | pkg/backends/s3.go:129-174 | a call is logged, and returns the decoded record, or a miss for no object or bad metadata |
| Base64.DecodeEncode | server.go:743 | a body decodes to itself however line breaks are put into its base64 text (section 4 of RFC 4648) |
| Base64.DecodeIff | server.go:743 | exactly the texts that are whole groups with padding at most at the end decode, once line breaks are dropped |
| Base64.DigitIs | server.go:743 | the alphabet of table 1 of RFC 4648 |
| Base64.Vectors | server.go:743 | test vectors of section 10 of RFC 4648 |
| Framing.ReadItem | server.go:710-751 | a printed request, with blank lines before and inside it, is read as itself; a body line is consumed exactly for a PUT of positive size |
| Framing.NoBodyLine | server.go:725-726 | after a request that is not a PUT of positive size the next line is left for the next request |
| Framing.ReadRequestIs | server.go:710-751 | on any input: malformed if the line does not parse, the request if it announces no body, and otherwise the request with the decoded body line, malformed if that does not decode, end of input if there is none |
| Framing.ReadLineFinds | server.go:692-707 | the line read is the first that is not blank, found exactly when one that is ended is there, with only blank lines before it |
| Framing.ReadPartialItem | server.go:728-736 | a request whose lines are not all there is not delivered: end of input |
| Framing.StreamRoundTrip | server.go:692-751 | every printed request sequence reads back as itself and then ends; an unterminated last line adds nothing |
| Framing.StreamCutAnywhere | server.go:692-751 | a stream cut after any number of bytes delivers exactly the complete requests, then ends without error |
| Framing.DeliveredAreFramed | server.go:726-748 | on any input, each delivered request has a body exactly if it is a PUT of positive size |
| Framing.Reader.NextLine | server.go:695-701 | reads up to the next newline, which it drops; without one the rest is consumed and there is no line |
| Framing.Reader.NextNonBlank | server.go:692-707 | readLine as a loop computes the recursive definition |
| Framing.Reader.NextRequest | server.go:710-751 | readRequest as code computes the recursive definition and leaves the rest of the input |
| Framing.Reader.ReadUntilClose | server.go:172-217 | Run hands out exactly the requests before the first close, in order, or all of them |
| MemLock.StepKeepsInv | pkg/locking/memlock.go:20-31 | every action keeps the key-to-mutex map one-to-one, and the map only grows and never rebinds a key |
| MemLock.OneRunnerPerKey | pkg/locking/memlock.go:20-31 | in every interleaving at most one goroutine runs its function per key |
| MemLock.StepIsTableStep | pkg/locking/memlock.go:28-30 | lazy creation is invisible: a goroutine waits exactly while its own key is taken, and locking and unlocking are the only visible actions |
| MemLock.NeverStuck | pkg/locking/memlock.go:21-28 | while a goroutine has not returned some goroutine can act |
| MemLock.RunsEnd | pkg/locking/memlock.go:20-31 | no run is longer than the goroutines' ways together, and a run that cannot go on has brought every goroutine back |
| MemLock.RunIsTableRun | pkg/locking/memlock.go:20-31 | every run is, seen through the lock table, a run in which free keys are taken and taken ones given back |
| MemLock.Group.LockFor | pkg/locking/memlock.go:21-27 | returns the key's mutex, created if there was none, and keeps all others |
| Output.WholeLinesBetween | server.go:663-681 | whenever nobody holds the writer, stdout is a concatenation of whole response lines and the buffer is empty |
| Output.WholeLines | server.go:663-681 | when all senders are done, splitting stdout at newlines gives every response exactly once |
| Stdout.EveryAnswerIsALine | server.go:210-228 | under every interleaving of the senders of a process's answers, stdout splits into one line for each answer |
| Output.Writer.SendResponse | server.go:663-681 | appends one whole line to stdout and leaves the buffer empty |
| Counters.MissesNeverNegative | server.go:273 | at every moment hits do not exceed GETs and duplicates do not exceed requests |
| Counters.TotalsAgree | server.go:253-312 | when handlers are done, GETs plus PUTs equal unique action IDs plus duplicates, and the sum of the seen counts; hits equal local plus backend hits |
| Counters.CountersTell | server.go:253-312 | at any moment each counter is the number of handlers it is named after: GETs and PUTs, duplicates of each, local and backend hits |
| Counters.StepKeepsRequests | server.go:398-405 | every single update keeps the first equation with its slack |
| Counters.StepKeepsSeen | server.go:755-765 | every single update keeps the equation for the seen counts with its slack |
| Counters.StepKeepsHits | server.go:645-653 | every single update keeps the hit equations with their slack |
| Counters.SeenActionIDs.Track | server.go:755-765 | the count of the action ID grows by one, and the answer says whether it was seen before |
| LocalCache.FileSystem.Copy | localcache.go:162-169 | whatever happens the file holds a prefix of the content, the whole of it on success |
| LocalCache.Cache.Write | localcache.go:150-187 | succeeds exactly when no call but the last removal fails; on success the data file is the body and no temporary file is left; on failure only the temporary file may differ, and stays only if its removal failed or it was never touched |
| LocalCache.Cache.WriteMetadata | localcache.go:80-104 | succeeds exactly when no call fails; on success the metadata file is the printed record; on failure only its temporary file may differ |
| LocalCache.Cache.ReadMetadata | localcache.go:108-146 | the loop over the lines computes the parser's definition |
| LocalCache.Cache.WriteWithMetadata | localcache.go:191-207 | fails exactly when the data file cannot be written; a failed metadata write is only logged and leaves the old metadata |
| LocalCache.Cache.Check | localcache.go:211-242 | a miss exactly when the metadata file is missing, cannot be read, or does not parse |
| LocalCache.OtherViews | localcache.go:247-258 | what changes only one action's files leaves the views of all others alone |
| Server.CacheProg.Upload | server.go:456-492 | the backend is called once with the payload of the entry under the action's key, or not at all exactly when the body does not compress; no other remote record changes |
| Server.CacheProg.PutLocked | server.go:408-495 | what the function under handlePut's lock returns and leaves, determined by what it found and which calls failed: a readable entry is kept and nothing called; a short body or failed write is an error without a put; otherwise the body is in the data file, and the backend is called exactly once unless the server is read-only or the body does not compress |
| Server.CacheProg.HandlePut | server.go:389-505 | the callback runs between taking and giving back the lock of the action's key; without the lock nothing happens and the answer is the lock error; otherwise the above, with the path or the error in the answer; the request is counted |
| Server.CacheProg.GetLocked | server.go:537-637 | the same for handleGet's: a readable entry is a hit without a call; otherwise the backend is asked exactly once, an error comes only of a call that failed, of data that do not decompress or of a failed write, no object is a miss, and an object is a hit on what it fills in, which is then in the data file |
| Server.CacheProg.HandleGet | server.go:518-660 | the same lock discipline; the answer has the hit's fields and path, a miss, or a miss with the error; the request and the hit are counted, local and backend hits apart |
| Server.CacheProg.PutDidIsOutcome | server.go:408-495 | what the code does under the lock is what the callback relation of the step machine allows, and its result reports that outcome |
| Server.CacheProg.GetDidIsOutcome | server.go:537-637 | the same for GETs |
| AsyncWriter.AsyncBackendWriter.Put | pkg/backends/async_backend.go:43-88 | never blocks: accepted if and only if a slot is free, otherwise nothing changes |
| AsyncWriter.AsyncBackendWriter.CallInner | pkg/backends/async_backend.go:66 | a goroutine hands its own task to the inner backend, in one call |
| AsyncWriter.AsyncBackendWriter.CountOutcome | pkg/backends/async_backend.go:71-84 | it counts the outcome as one success or one failure |
| AsyncWriter.AsyncBackendWriter.Release | pkg/backends/async_backend.go:63 | its first deferred call gives the slot back and leaves the wait group waiting |
| AsyncWriter.AsyncBackendWriter.Done | pkg/backends/async_backend.go:62 | its second one ends the waiting for it |
| AsyncWriter.AsyncBackendWriter.Close | pkg/backends/async_backend.go:98-117 | however the steps of the goroutines interleave, when the inner backend closes every accepted task has been handed over exactly once and every slot is back |

## Left out

- Argument and environment parsing, help texts, the clear commands and the choice of a backend in main.go.
- The AWS and Google SDKs: bucket checks, credentials, pagination and the matching of error strings. The remote store is a map whose calls may fail; gcs.go would be a second instance of the same codec, and Clear is not modelled.
- debug.go, error.go and noop.go: a wrapper that logs, one whose injected errors are covered by nondeterministic failure, and a store that never holds anything.
- The bodies of LZ4, SHA-256, JSON and the flock library: abstract functions or steps, under the assumptions above.
- Latency metrics, the printed statistics, byte counters, formatBytes and floating-point rates.
- Power loss and reordering of disk writes: the code never calls fsync, so a crash is a killed process.
- Clearing the cache directory from outside during a run, and the lock group that does not lock.
- Failing writes to stdout: the paths through Run's error channel (server.go:222-236, 245-250) are not modelled.
- A malformed input line makes Run wait for its handlers and stop (server.go:177-181); the step machine treats it as the end of the input, and Framing reports it as an unclean session.
- The panic on an empty action ID is modelled as a handler that keeps its lock and never moves, so that only a kill of the process is left.
- White space is ASCII: the Unicode blanks that Go also trims are treated as ordinary bytes, and a stream is a string of bytes.
- The loop of Run that starts goroutines is part of the step machine (Protocol.AdvanceProc), not a method; Framing.Reader.ReadUntilClose is its reading half.
- FSLockGroup.DoWithLock takes a callback, which a method cannot; its acquisition with timeout is the Locking step of Protocol and Locker.Acquire in Server, which logs it.
- Server.CacheProg.HandlePut: does not model the asynchronous writer in front of the backend, because the step machine does.
- Uploads.BackendContract: assumes non-empty output IDs and that metadata writes and reads succeed, because without them it is false; Overlaps.CalledOnceIff and Overlaps.NoOverlapIff say exactly when its parts hold.
- Invisible.RemoteWritesNeverShow: assumes reliable metadata, non-empty output IDs and bodies that compress, because without them it is false; Invisible.MirroredIff and Invisible.OnePutMirroredIff say exactly when.
- A put that fails may have stored its object, or not; one that is stored only after its process died, or after later actions, is not modelled.
- A PUT whose BodySize is too large to allocate panics (server.go:422); the model answers that the body is too short.
- The counters are a machine of their own; that their handlers are those of Protocol is not proved.
