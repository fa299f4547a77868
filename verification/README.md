# agent-smith: a verified model

agent-smith is a self-hosted assistant. This project models the parts of it that carry
a protocol, a loop with state, a parser or machine arithmetic, and proves what they
keep:

- **Installer.** Several processes install the artifacts of a commit-pinned manifest
  into shared directories, under an acquisition lock and a manifest lock, through
  unique staging files and resumable partials, with a rollback and with crashes at any
  step (`Artifacts`, `InstallProtocol`, `InstallSafety`, `InstallTheorems`,
  `FileLock`). The same section as sequential code over a mutable directory is in
  `Installer`; `InstallTheorems.HolderIsAlone` is why it may be read sequentially.
  Grouping the shards of split models is in `GroupModels`.
- **Agent.** The session with its in-place compaction and the two agent loops (`Llm`,
  `Agent`), the translation to Anthropic turns (`Wire`), and the streaming reply
  (`Stream`, `StreamTheorems`).
- **Server-sent events.** The Go writer and the TypeScript reader (`Sse`,
  `SseTheorems`).
- **GGUF.** The metadata reader and the serializer it inverts (`Gguf`, `GgufReader`,
  `GgufContext`).
- **Fit.** The fit gate in 64-bit arithmetic, the pick of a smaller model, and the
  launch loop built on it (`Fit`, `Catalog`, `Launch`).
- **Retrieval.** Chunking, the structural graph and its expansion, search and fusion
  (`Chunker`, `Graph`, `GraphBuild`, `GraphExpand`, `Adjacency`, `Search`, `Fusion`,
  on `Sorting` and `Text`).
- **Control.** The refinement loop and the placement of a model on a cluster
  (`Refine`, `Scheduler`, `Placement`).

What is foreign to these parts enters as a parameter or as a free choice: a function
for SHA-256, JSON, cosine similarity, trimming and extraction; a `*`, an action or an
argument for the file system, the network, providers, tools, the compactor, judges, probes
and the clock. Objects whose methods update them are classes; values are datatypes.

`dafny verify dfyconfig.toml` verifies everything.

## Where code and documentation part

The model follows the code.

- Adjacent edges are said to join the passage that continues a document
  (internal/rag/graph.go:1-12), but chunks are numbered anew in every section
  (internal/rag/chunker.go:108-118) and sorted by that number alone. The order is the
  document's if and only if it has at most one section (`Adjacency`).
- `perCollectionCap` limits what a collection contributes (internal/rag/index.go:128-134),
  unless the filter names it more than once: then it is the cap for each time.
  `Search.CapLimits` has the exact condition, `Search.NamedTwice` an index.
- The streaming loop can leave a session in which calls lack their results: exactly
  when the sink refuses the event of a result that is not the last of its round
  (`Agent.Loop.RunStream`; `Agent.RefusedResultUnpairs` has such a round).
- The event reader normalises CR LF within each read (web/src/sse.ts:104-110); a read
  that ends between the two characters keeps them (`SseTheorems.SameTextIffNoSplit`),
  and a frame before a broken connection may be lost (`SseTheorems.CutLosesFrame`).
  Which splits change the callbacks is in `SseTheorems.InnerSplit`,
  `SseTheorems.FirstSplit` and `SseTheorems.SecondSplit`.
- `uintValue` is said to take signed non-negative integers and the reader to refuse
  entries that disagree (internal/llm/llamacpp/gguf.go:98-102, 194-201); the code takes
  unsigned types only and refuses several entries even if they agree
  (`GgufContext.SignedGivesNone`, `GgufContext.AgreeingGiveNone`).
- The launch loop is said to be bounded because each pick is smaller than the reference
  that failed (cmd/agent/provider.go:217-224); it is smaller than the bytes that were
  reported for it, which may exceed what the ladder says (`Launch.PickGoesUp`). If they
  do not, the picks go down (`Launch.PicksGoDown`); the visited set bounds the loop.
- A negative `memory_gb` passes the configuration check and gives a negative share
  (`Scheduler.NegativeShare`); `Scheduler.SharesNonNegative` has the exact condition.
- A backend that runs already is chosen without a restart, whatever model it was
  started for (internal/cluster/manager.go:159-161): `Placement.OtherModelServed`, and
  exactly when it serves the requested one in `Placement.ServesRequested`.
- Of whole files whose names differ in case only, `groupModels` keeps the last and
  gives no error (internal/llm/llamacpp/download.go:465-468): `GroupModels.CaseLosesFile`,
  and exactly when no file is lost in `GroupModels.NoneLostIff`.
- A tag with a bar can make different sets of failure modes look alike
  (`Refine.BarsConfuse`).
- A policy that is not sane (less than 4 or more than 2^60 - 1 bytes per token, or a
  headroom above the reserve of the largest host) makes the fit gate part from its
  formula: the per-token size wraps or vanishes, or a saturated sum of available and
  reclaimable memory refuses what the formula accepts (`Fit.AgreesIffSane`,
  `Fit.SaneIsNeeded`).
- Fusion is said to combine hits deterministically (internal/rag/service.go:540-544), but
  results that tie in score and tie-break come in the order of a Go map: the ranking is
  fixed if and only if there are none (`Fusion.OnlyRankingIff`; `Fusion.TwoRankings` has
  two such hits).

## Model

| member | source | states |
|---|---|---|
| `InstallSafety.StepKeepsInv` | internal/llm/llamacpp/download.go:658-778 | whatever step any process takes next (a file operation, a lock operation, a decision, a failure, a crash), the whole invariant of the protocol holds again: locks match program points, every claimed stage is live, committed, put back, discarded or stuck as its files say, every staging file has an accountable owner |
| `InstallSafety.StepFrame` | internal/llm/llamacpp/download.go:847-928 | a step changes files of the process's own manifest directory only, and only under its lock; a final path that verifies goes on verifying; staging files of others stay theirs |
| `InstallSafety.StepLocks` | internal/llm/llamacpp/filelock_unix.go:23-84 | after any step each process holds exactly the locks its program point requires, and every held lock belongs to a process |
| `InstallSafety.AllCommitted` | internal/llm/llamacpp/download.go:762-776 | when every claimed stage is committed and every artifact is valid or claimed, every path of the manifest verifies |
| `Artifacts.VerifiesMeans` | internal/llm/llamacpp/download.go:1117-1137 | content verifies exactly if it has the artifact's size, at least four bytes, GGUF in front, and the artifact's hash |
| `InstallTheorems.OnlyVerifiedContentAppears` | internal/llm/llamacpp/download.go:731-769 | in every run a final path changes only by a rename that makes its content have the size, the four magic bytes and the hash the commit publishes, by a process whose plan fits, when everything its manifest lists is valid in place or staged and verified |
| `InstallTheorems.GoodForever` | internal/llm/llamacpp/download.go:909-928 | a final path that verifies keeps verifying for the rest of the run, whoever acts |
| `InstallTheorems.ReturnedPathsVerify` | internal/llm/llamacpp/download.go:658-778 | after a normal return (from the cache or from an installation) the file of every model file and of the projector has its size, the four magic bytes and its hash, then and for the rest of the run |
| `InstallTheorems.MutualExclusion` | internal/llm/llamacpp/download.go:703-717 | at most one process per models directory is between its second plan and the end of its rollback, and at most one per manifest directory holds its lock |
| `InstallTheorems.RequestsAreAdmitted` | internal/llm/llamacpp/download.go:724-761 | in every state of a run in which a process requests an artifact it holds both locks and has a plan that fits |
| `InstallTheorems.HolderIsAlone` | internal/llm/llamacpp/download.go:792-801 | while a process holds the lock of its manifest directory nobody else changes a file there |
| `InstallTheorems.NoDeadlock` | internal/llm/llamacpp/download.go:706-717 | in every reachable state with an unfinished process (if that still looks for its manifest, provided one can be resolved) some process can take a step that is no failure, crash or cancellation |
| `InstallTheorems.WaitersHoldNothing` | internal/llm/llamacpp/download.go:706-717 | who waits for the acquisition lock of a models directory holds no lock |
| `InstallTheorems.EveryStepProgresses` | internal/llm/llamacpp/download.go:658-778 | each step but the arrival of bytes brings its process nearer to its end and leaves the other processes where they are |
| `InstallTheorems.RunsAreBounded` | internal/llm/llamacpp/download.go:658-778 | in a run whose manifests list at most n artifacts all processes together take at most 56 (n + 1) steps times their number, however they interleave and fail, the arrival of bytes apart |
| `InstallTheorems.ReturnedWasAdmitted` | internal/llm/llamacpp/download.go:658-735 | in every run what a process downloads or returns, from the cache or not, was found to fit at an earlier step of that process, for the same manifest |
| `InstallTheorems.FailureHasCause` | internal/llm/llamacpp/download.go:658-778 | in every run an error is returned only if at an earlier step of that process an operation failed, the caller gave up, the plan did not fit, or what was downloaded was not the artifact |
| `InstallTheorems.NoStagingLeft` | internal/llm/llamacpp/download.go:736-745 | a staging file is one that was there at the start, belongs to a process that is still downloading or rolling back or that crashed, or is a stuck claim |
| `InstallTheorems.ClaimsAreSettled` | internal/llm/llamacpp/download.go:738-769 | before the locks are dropped every claimed stage is renamed onto a final path that verifies, back under its stable name, discarded after an earlier step of the run found its content invalid, or stuck after an earlier step failed to remove it or to move it back; only in the last case its staging name is still taken |
| `InstallTheorems.DiscardedWasFoundInvalid` | internal/llm/llamacpp/download.go:1071-1075 | in every run each discarded claim was verified by its process at an earlier step, and the content there did not verify |
| `InstallTheorems.StuckWasLeftBehind` | internal/llm/llamacpp/download.go:847-907 | in every run each stuck claim goes back to an earlier step of its process at which the removal of its temporary file or its move back failed |
| `FileLock.AcquireFileLock` | internal/llm/llamacpp/filelock_unix.go:23-64 | the lock comes back exactly if at one of the looks, before the context is done, no other open file holds the path; then it is held by this descriptor and nothing else is; giving up leaves nothing held |
| `FileLock.Kernel.TryLock` | internal/llm/llamacpp/filelock_unix.go:48-56 | a non-blocking attempt succeeds exactly when no other open file holds the path, and changes nothing otherwise |
| `FileLock.Lock.Close` | internal/llm/llamacpp/filelock_unix.go:73-84 | the first call releases what the descriptor holds and clears the field, a further call does nothing |
| `Installer.Downloader.ClaimPartial` | internal/llm/llamacpp/download.go:847-888 | gives a staging name that did not exist, holding the stable partial (which is gone) or nothing; on an error the directory is as before or, where the removal fails, has one empty stage more |
| `Installer.Downloader.RestorePartial` | internal/llm/llamacpp/download.go:890-907 | moves the stage to the stable name exactly when the stage exists, the name is free and the rename works; succeeds exactly if the stage is gone afterwards |
| `Installer.Downloader.CommitStagedFile` | internal/llm/llamacpp/download.go:909-928 | success means the rename happened; an error means it happened (and chmod failed) or nothing changed |
| `Installer.Downloader.DownloadArtifact` | internal/llm/llamacpp/download.go:988-1076 | changes the stage only; it succeeds exactly if the answer completes the partial to the artifact (whole file of the right size, magic number and hash, from the old partial alone, continued by a matching partial answer, or from a full answer), unless a file operation fails; the stage disappears only if its full content failed verification, and stays if that removal fails |
| `Installer.Downloader.PlanValid` | internal/llm/llamacpp/download.go:616-626 | reports valid exactly the artifacts whose final path verifies |
| `Installer.Downloader.StageArtifact` | internal/llm/llamacpp/download.go:747-761 | claims at most one stage, for this artifact; it succeeds exactly if the answer completes the partial, unless a file operation fails, and then the stage holds verified content; a claim that fails leaves nothing or one empty stage; files named otherwise are untouched |
| `Installer.Downloader.StageMissing` | internal/llm/llamacpp/download.go:746-761 | claims only artifacts that were not valid, changes no final path, and on success has every artifact valid or staged and verified; without a failing file operation it fails only if the answers do not complete what is missing |
| `Installer.Downloader.CommitStaged` | internal/llm/llamacpp/download.go:764-769 | the claims up to some position are committed, the rest are as staged, live and verified; success means all are committed |
| `Installer.Downloader.Rollback` | internal/llm/llamacpp/download.go:738-745 | every live stage goes back under its stable name with its content if its rename works, and else stays with its content; the other claims, and the stage of a failed claim, stay as they are; none is live afterwards |
| `Installer.Downloader.VerifyDirectory` | internal/llm/llamacpp/download.go:930-937 | true exactly if every artifact of the manifest verifies at its final path |
| `Installer.Downloader.Install` | internal/llm/llamacpp/download.go:724-778 | however files and network behave: nothing changes but what the claims account for, no live stage is left, and a stuck one only if its move back failed or it is that of the last claim; only missing artifacts are claimed; it succeeds exactly if the plan fits and the answers complete what is missing, unless a file operation fails; then the result names one path for each model file and the projector, in order, and each of these files has the size, the four magic bytes and the hash of its artifact; a refused plan changes nothing |
| `Installer.SettledDirectory` | internal/llm/llamacpp/download.go:736-778 | with no live claim a staging file is as at the start or a stuck claim, and a final path is as at the start or verifies |
| `Installer.NothingFinal` | internal/llm/llamacpp/download.go:762-769 | as long as nothing is committed every final path is as at the start |
| `GroupModels.ParseMatches` | internal/llm/llamacpp/download.go:393 | a name that has the form of a split shard is read as its prefix, index and total |
| `GroupModels.ParsedMatches` | internal/llm/llamacpp/download.go:393 | a name that is read as a shard has that form |
| `GroupModels.ParseMeans` | internal/llm/llamacpp/download.go:393 | a name is read as a shard exactly if its last 20 characters are -ddddd-of-ddddd.gguf in either case and the rest is on one line; prefix, index and total are the characters in their places |
| `GroupModels.TextIsNumeric` | internal/llm/llamacpp/download.go:488 | for digit strings of one length text order is numeric order, and equal numbers are equal strings |
| `GroupModels.NamesInOrder` | internal/llm/llamacpp/download.go:488 | shards that differ in their index alone stand in the order of their indices |
| `GroupModels.Collect` | internal/llm/llamacpp/download.go:462-485 | refuses exactly the listings with an index outside 1 to total; else gives each key its files in order (of whole files with one key the last), its primary and its display |
| `GroupModels.CheckGroup` | internal/llm/llamacpp/download.go:488-503 | sorts the files by name; a split group is refused exactly if these are not numbered 1 to their total or there is no primary |
| `GroupModels.CheckAll` | internal/llm/llamacpp/download.go:486-504 | one checked group for every key, or an error with a group that is broken |
| `GroupModels.Groups` | internal/llm/llamacpp/download.go:461-507 | the two errors are given only for an index outside 1 to total (exactly then) and for a broken group; an accepted listing has one sorted group per key, shown under its name and sorted by that |
| `GroupModels.AcceptedIsWhole` | internal/llm/llamacpp/download.go:489-502 | an accepted split group is shards 1 to n in order, n of them, each of total n, all from the listing, and its primary is the first |
| `GroupModels.CompleteIsAccepted` | internal/llm/llamacpp/download.go:461-507 | a listing whose split groups are complete sets, in whatever order, gives neither error |
| `GroupModels.NoneLostIff` | internal/llm/llamacpp/download.go:461-507 | every file of an accepted listing stands in a group if and only if no two different whole files have the same name in lower case |
| `GroupModels.CaseLosesFile` | internal/llm/llamacpp/download.go:465-468 | a listing of two whole files whose names differ in case only gives neither error and loses one of them |
| `Agent.Session.Append` | internal/agent/session.go:25-29 | the message goes to the end, the rest stays |
| `Agent.Session.Messages` | internal/agent/session.go:36-42 | a copy of the whole history |
| `Agent.Session.Reset` | internal/agent/session.go:45-49 | the history is empty |
| `Agent.Loop.PickLargest` | internal/agent/agent.go:418-425 | the largest message, in estimated tokens, that is compactable and not tried; none exactly if those left have no text |
| `Agent.Loop.CompactOnce` | internal/agent/agent.go:385-403 | the first pass: every text of a user message, a tool message or an assistant message without calls that the compactor rewrites is rewritten, and nothing else differs |
| `Agent.Loop.FitBudget` | internal/agent/agent.go:411-436 | each step goes to the largest user message, tool message or assistant message without calls whose text did not come out of a forced compaction, and takes what the compactor answers; it ends within the token budget or when every such text has come out of one, and system messages and messages with calls stay |
| `Agent.Loop.CompactSession` | internal/agent/agent.go:370-449 | the session becomes the first pass of what it was and then, with a budget, the second; only texts of user messages, tool messages and assistant messages without calls differ; it is within the budget, or each of these texts that is not empty has come out of a forced compaction |
| `Agent.TotalIsSum` | internal/agent/agent.go:471-479 | the tokens of a conversation are those of its messages together, four characters each and the last begun |
| `Agent.RetrievedMeans` | internal/agent/agent.go:286-292 | retrieval was used exactly if an earlier reply calls rag_search or graph_expand |
| `Llm.PairedMeans` | internal/agent/agent.go:265-276 | a conversation is paired exactly if call k of message i has its result, by its id, at i + 1 + k, and every result stands among the results of some calls |
| `Llm.ShapeKeepsPairing` | internal/agent/agent.go:438-443 | rewriting texts neither breaks nor makes the pairing of calls and results |
| `Agent.Loop.ComposeFrom` | internal/agent/agent.go:495-532 | the conversation, behind one system message with the section unless that is empty; it is paired exactly if the conversation is |
| `Agent.Loop.ClassicFallback` | internal/agent/agent.go:299-318 | an empty session is not asked about; otherwise one request is made, the conversation without its last message behind the system section, the session stays, and the reply is the answer exactly if it is not blank |
| `Agent.Loop.Ask` | internal/agent/agent.go:228-244 | compacts, then asks about exactly the compacted session behind the system section; a paired session stays paired and so is the request; the reply is passed on |
| `Agent.Loop.RunTools` | internal/agent/agent.go:265-276 | appends one result per call with what the tool gave, in order, up to the first that the sink does not take; the session is paired afterwards exactly if that is none, or the last |
| `Agent.Loop.Conclude` | internal/agent/agent.go:247-263 | appends the answer; the grounded pass is asked exactly if the loop is agentic and grounded and nothing was retrieved, about the conversation before the answer, and replaces it exactly if its own is not blank |
| `Agent.Loop.PlayRound` | internal/agent/stream.go:111-191 | one round, for any reply, tools, compactor and sink: the request is the compacted session; the reply and its results are appended; it ends without an answer, with an answer, with all results taken, or with the first that is refused; the session is left unpaired exactly if that one is not the last |
| `Agent.Loop.Run` | internal/agent/agent.go:213-279 | for any replies, tools and compactor: stops at the first reply that calls no tool or fails, or at MaxIters, each with its error; the answer is that reply's text, or the grounded pass's where that applies, and the note; from a paired session every exit leaves it paired and every request was; the session is the old one with the input and, round by round, replies and results, compacted, and the answer; each request is the conversation of its round behind its system section, one a round and one for the grounded pass |
| `Agent.Loop.RunStream` | internal/agent/stream.go:85-195 | for any replies, tools, compactor and answers of the sink: stops at the first round that calls no tool, fails or has a result refused; errors, answer, session and requests as in the other loop; every request is paired, and the session ends paired exactly if in no round that is played the sink refuses a result before the last |
| `Agent.RefusedResultUnpairs` | internal/agent/stream.go:166-190 | such a round: two calls, the first result refused; the conversation that is left lacks the second |
| `Agent.GroupPairing` | internal/agent/agent.go:265-276 | an assistant message and some of its results keep a paired conversation paired exactly if all results are there |
| `Wire.BuildRequest` | internal/llm/anthropic/client.go:159-257 | the system text joins by blank lines the texts of the system messages that have one, at increasing positions and all of them; the one there is, if there is one; the turns are those of the step-by-step translation |
| `Wire.BlocksMean` | internal/llm/anthropic/client.go:205-236 | the blocks of a message by role: nothing of a system message, the one result of a tool message, else the text unless empty, the images (image/png where untyped) and the calls ({} where empty) |
| `Wire.TurnsAreGroups` | internal/llm/anthropic/client.go:185-242 | the turns are the non-system messages, group by group: an assistant message alone, a user message with the results behind it, or results behind an assistant turn; each turn has the side and the blocks of its group |
| `Wire.RequestIsPaired` | internal/llm/anthropic/client.go:185-242 | a paired conversation becomes turns in which each assistant turn with tool uses is followed at once by one user turn with exactly their results, in order, and results stand nowhere else |
| `Wire.RequestKeepsBlocks` | internal/llm/anthropic/client.go:185-242 | for any conversation the blocks of all turns, in order, are the blocks of all messages, in order |
| `Wire.ResultsTurn` | internal/llm/anthropic/client.go:192-205 | consecutive tool messages after an assistant turn fill one user turn with exactly their results |
| `Stream.ChatStream` | internal/llm/anthropic/stream.go:67-135 | what is sent is exactly the chunks of the event sequence (snapshots by block index, one end) up to the first send that is abandoned |
| `Stream.ConsumeCall` | internal/agent/stream.go:231-277 | one snapshot updates call, order and events as specified |
| `Stream.ConsumeRound` | internal/agent/stream.go:204-300 | a message comes back if and only if the stream ends without an error, the context is not found done, and the sink takes all there is to tell; it is what the chunks assemble to, and the sink has heard their events and one end per call; otherwise the sink has heard exactly what was told up to the chunk that failed (and the error), the look that found the context done, or the event it refused |
| `Stream.Chat` | internal/llm/anthropic/client.go:314-331 | the non-streaming reply: all texts joined, all calls in order |
| `StreamTheorems.AssembledReply` | internal/agent/stream.go:204-300 | for every well-formed event sequence, blocks interleaved or not, provider and consumer together assemble what the events say: the text, and each started call with its fragments joined |
| `StreamTheorems.BodyArrives` | internal/llm/anthropic/stream.go:67-135 | whether a stop event comes or the body just ends, the consumer gets exactly the chunks of the events and one end, and tells exactly what is to be heard of them |
| `StreamTheorems.BodyBreaks` | internal/llm/anthropic/stream.go:67-135 | a body that breaks gives exactly the chunks of the events before and one failure |
| `StreamTheorems.EventsSay` | internal/llm/anthropic/client.go:314-331 | cutting each block of a reply into any fragments gives a well-formed sequence that says the same, whatever the names of its tools and whatever other blocks there are |
| `StreamTheorems.StreamedReply` | internal/agent/stream.go:204-300 | for every reply whose tool calls have distinct non-empty ids, named or not, and every way of cutting its blocks, the streamed message has the text and the ordered calls of the non-streaming one, an empty input counting as {} |
| `StreamTheorems.HeardText` | internal/agent/stream.go:225-298 | the emitted text deltas add up to the content, and arguments are told only after the one start of their call |
| `StreamTheorems.HeardLines` | internal/agent/stream.go:225-298 | for every well-formed event sequence what is told is, event by event: each text, the start of each named call, the joined fragments of a named call at each further one that is not empty, and at last the end of each call |
| `StreamTheorems.HeardArgs` | internal/agent/stream.go:266-276 | the arguments told of a started call are exactly the non-empty running joins of its fragments, in order, each with its name, and none if it has no name |
| `StreamTheorems.HeardOnce` | internal/agent/stream.go:255-298 | each call is told to start exactly once if it has a name and never if it has none, and to end exactly once |
| `StreamTheorems.UnnamedIsSilent` | internal/agent/stream.go:255-275 | of a call without a name neither a start nor arguments are told |
| `StreamTheorems.HeardNoOther` | internal/agent/stream.go:255-298 | no start and no end is told of any other id |
| `StreamTheorems.SnapshotsMean` | internal/agent/stream.go:234-254 | for whatever chunks with ids, of whatever provider: one call for each id, in the order of the first snapshots, with the arguments of the last and the name of the last that has one |
| `StreamTheorems.AnonymousReply` | internal/agent/stream.go:237-254 | snapshots without an id become calls of their own, in order |
| `StreamTheorems.AnonymousIsNew` | internal/agent/stream.go:235-247 | a snapshot without an id is a new call exactly if no call has the id it gets; else it becomes the latest snapshot of that call |
| `Sse.Encoder.WriteOpenAIDelta` | internal/server/sse.go:37-63 | appends one data frame, spelled out, and nothing else |
| `Sse.Encoder.WriteNamedEvent` | internal/server/sse.go:70-80 | appends one named frame, spelled out |
| `Sse.Encoder.WriteComment` | internal/server/sse.go:88-94 | appends one comment frame, spelled out |
| `Sse.Encoder.WriteDone` | internal/server/sse.go:97-100 | appends the terminator frame, spelled out |
| `Sse.HandleFrame` | web/src/sse.ts:128-176 | event name and data lines of a frame decide the callbacks, or that an exception leaves the handler |
| `Sse.DrainFrames` | web/src/sse.ts:111-116 | handles every terminated frame of the buffer in order and leaves what follows the last; an exception ends it |
| `Sse.StreamChat` | web/src/sse.ts:95-126 | the callbacks depend only on the text the reads amount to and on how the body ends |
| `SseTheorems.CuttingDoesNotMatter` | web/src/sse.ts:100-118 | two ways of cutting one text free of carriage returns make the same callbacks (section 9.2.6 of the WHATWG HTML Standard) |
| `SseTheorems.SameTextIffNoSplit` | web/src/sse.ts:104-110 | normalising read by read equals normalising the whole text if and only if no read ends between the two characters of a CR LF |
| `SseTheorems.UnsplitIsPlain` | web/src/sse.ts:104-116 | if no read splits a CR LF the callbacks are those of the text with bare line feeds |
| `SseTheorems.CrLfRoundTrip` | web/src/sse.ts:95-126 | so written frames whose line breaks are CR LF give the events written and the final done, however the body is cut outside those pairs |
| `SseTheorems.CuttingMatters` | web/src/sse.ts:104-116 | a concrete text with CR LF of which one cut loses a frame terminator |
| `SseTheorems.CutLosesFrame` | web/src/sse.ts:95-126 | for every frame the server writes, with CR LF line breaks and a connection that breaks after it: read whole it is reported before the error, cut before its last character it is not reported |
| `SseTheorems.CutLosesDelta` | web/src/sse.ts:95-126 | the same for a concrete codec and a data frame |
| `SseTheorems.ReadInstead` | web/src/sse.ts:95-176 | a text that a cut puts in the place of some frames changes the callbacks if and only if it is not handled as they are: other callbacks, or an exception that ends the stream otherwise than they and the rest would |
| `SseTheorems.InnerSplit` | web/src/sse.ts:128-140 | a split inside a named frame changes nothing |
| `SseTheorems.FirstSplit` | web/src/sse.ts:95-116 | a split in the first line break behind a frame changes the callbacks if and only if the frame with a carriage return at its end is not handled as the frame |
| `SseTheorems.DoneUnread` | web/src/sse.ts:142-153 | for the done frame that is so, unless its text with the carriage return parses: it makes no callback |
| `SseTheorems.SecondSplit` | web/src/sse.ts:95-116 | a split in the second line break joins two frames; the callbacks change if and only if the two read as one are not handled as both |
| `SseTheorems.BodyRoundTrip` | web/src/sse.ts:128-176 | parsing any frame the server writes gives its meaning and throws nothing |
| `SseTheorems.HandleEncoded` | internal/server/sse.go:37-100 | the frames of any written sequence are handled as exactly the events written, comments dropped, with nothing left over |
| `SseTheorems.RoundTrip` | web/src/sse.ts:95-126 | for every sequence of written frames and every way of cutting it, the callbacks are the events written and the final done |
| `SseTheorems.LastFrame` | web/src/sse.ts:112-120 | the same if the last frame lacks its blank line and the body closes: it is reported, then done |
| `SseTheorems.LastWhite` | web/src/sse.ts:117-118 | a rest of white space adds nothing |
| `SseTheorems.Unfinished` | web/src/sse.ts:104-126 | a rest without a blank line is dropped when the body is aborted (done) or breaks (error and done) |
| `SseTheorems.CollectMeans` | web/src/sse.ts:128-140 | the data of a frame are the texts behind data: of its lines, in order, each trimmed in front; its event is the trimmed text behind the last event:, or message |
| `SseTheorems.NullEndsStream` | web/src/sse.ts:152-176 | a data frame whose value is null ends the stream with an error whatever follows it |
| `Gguf.FromLEOfLE` | internal/llm/llamacpp/gguf.go:62-76 | reading a little-endian number gives the number written |
| `Gguf.LEOfFromLE` | internal/llm/llamacpp/gguf.go:62-76 | writing the number read gives the bytes read |
| `Gguf.LittleEndian` | internal/llm/llamacpp/gguf.go:62-76 | four and eight bytes of a number, least first |
| `Gguf.NestedValid` | internal/llm/llamacpp/gguf.go:151-192 | arrays are valid exactly when nested at most four deep |
| `Gguf.SmallFile` | internal/llm/llamacpp/gguf.go:202-279 | a header of two entries, byte by byte |
| `GgufReader.Reader.Number` | internal/llm/llamacpp/gguf.go:62-76 | reads the one number encoded at the cursor, and fails only where none is |
| `GgufReader.Reader.ReadString` | internal/llm/llamacpp/gguf.go:78-91 | reads exactly the string within the bound encoded at the cursor; fails exactly where none is |
| `GgufReader.Reader.Skip` | internal/llm/llamacpp/gguf.go:93-96 | moves over exactly so many bytes, or fails for want of them |
| `GgufReader.Reader.SkipArray` | internal/llm/llamacpp/gguf.go:151-192 | moves over exactly the encoding of the one array, nested at most four deep, that begins at the cursor; fails exactly where none does |
| `GgufReader.Reader.SkipStrings` | internal/llm/llamacpp/gguf.go:175-181 | the same for a given number of strings |
| `GgufReader.Reader.SkipArrays` | internal/llm/llamacpp/gguf.go:182-188 | the same for a given number of arrays |
| `GgufReader.Reader.UintValue` | internal/llm/llamacpp/gguf.go:103-149 | consumes exactly the encoding of the one value of this type, and gives its number exactly if it is unsigned |
| `GgufContext.ReadHeader` | internal/llm/llamacpp/gguf.go:210-233 | accepts exactly the files with magic, version 2 or 3, and a count within the bound in their first 24 bytes |
| `GgufContext.ReadEntry` | internal/llm/llamacpp/gguf.go:238-263 | consumes exactly one entry and learns from it what it says of architecture or context length |
| `GgufContext.LearnedArch` | internal/llm/llamacpp/gguf.go:246-250 | with distinct keys the scan knows the declared architecture and no other |
| `GgufContext.LearnedContext` | internal/llm/llamacpp/gguf.go:251-258 | and exactly the unsigned context lengths the entries hold |
| `GgufContext.EarlyAnswer` | internal/llm/llamacpp/gguf.go:264-268 | once architecture and its length are known, whatever entries follow the answer is right for all of them |
| `GgufContext.EarlyIsFull` | internal/llm/llamacpp/gguf.go:264-278 | the early return gives what a full scan gives |
| `GgufContext.FinalAnswer` | internal/llm/llamacpp/gguf.go:270-278 | after the last entry the answer is right, with and without a declared architecture |
| `GgufContext.OneAnswer` | internal/llm/llamacpp/gguf.go:194-201 | the meaning of the metadata fixes one answer |
| `GgufContext.SignedGivesNone` | internal/llm/llamacpp/gguf.go:103-149 | where the length of the declared architecture is a signed integer the answer is 0, whatever its bytes |
| `GgufContext.AgreeingGiveNone` | internal/llm/llamacpp/gguf.go:270-278 | two lengths that agree, without a declared architecture, give 0 |
| `GgufContext.Scan` | internal/llm/llamacpp/gguf.go:235-278 | stops at the first entry that settles the answer; every list of entries the bytes may be read as has that answer |
| `GgufContext.ReadContextLength` | internal/llm/llamacpp/gguf.go:202-279 | on every file that starts with a serialized valid header with distinct keys: its clamped context length; an error only where no valid header stands (section File Structure of the GGUF specification) |
| `Fit.Add64` | internal/llm/llamacpp/fit.go:345-350 | flags exactly the sums beyond 64 bits |
| `Fit.Mul64` | internal/llm/llamacpp/fit.go:364-369 | flags exactly the products beyond 64 bits |
| `Fit.Sum64` | internal/llm/llamacpp/fit.go:352-362 | flags exactly the totals beyond 64 bits, whatever the order of the terms |
| `Fit.EstimateKV` | internal/llm/llamacpp/fit.go:232-236 | for any policy the KV estimate is the product with the wrapped per-token size, flagged exactly if the tokens or the product exceed 64 bits |
| `Fit.EstimateRuntime` | internal/llm/llamacpp/fit.go:222-244 | the same for the runtime estimate |
| `Fit.AvailableBudget` | internal/llm/llamacpp/fit.go:246-262 | for any policy the budget is that of the saturating differences and the saturated sum |
| `Fit.BudgetExact` | internal/llm/llamacpp/fit.go:246-262 | it is the unbounded budget, or 0 where that is negative, on all hosts and requests if and only if the headroom is at most the reserve of the largest host |
| `Fit.KVExact` | internal/llm/llamacpp/fit.go:54-56 | the KV estimate is the unbounded product for all requests if and only if the per-token size is from 4 to 2^60 - 1 bytes |
| `Fit.CheckVram` | internal/llm/llamacpp/fit.go:284-305 | no reason exactly if the full offload fits the unbounded budget; the requirement cannot overflow here |
| `Fit.CheckDisk` | internal/llm/llamacpp/fit.go:307-321 | no reason exactly if download and reserve fit the free disk |
| `Fit.UnknownReasons` | internal/llm/llamacpp/fit.go:204-215 | no reason exactly if all inputs are known |
| `Fit.EstimateFit` | internal/llm/llamacpp/fit.go:174-343 | for all 64-bit inputs and any policy the report accepts exactly if the gate predicate holds, exactly if it gives no reason; its reasons are every unknown input and the first overflow or all that is short; it reports context and parallelism, and on acceptance runtime, KV estimate, reserve and budget |
| `Fit.GateIsFormula` | internal/llm/llamacpp/fit.go:174-343 | for every sane policy the gate decides as the formula over unbounded integers |
| `Fit.AgreesIffSane` | internal/llm/llamacpp/fit.go:174-343 | for policies that leave room for six EiB beside scratch and reserve, gate and formula agree on all hosts and requests if and only if the policy is sane (a headroom within 16 bytes above the sane ones aside) |
| `Fit.NothingFits` | internal/llm/llamacpp/fit.go:174-343 | if the policy leaves no room for one byte, both refuse everything |
| `Fit.SaneIsNeeded` | internal/llm/llamacpp/fit.go:174-343 | a host, a request and a policy on which they differ, for too small a per-token size, one that wraps, and too large a headroom |
| `Fit.DefaultIsSane` | internal/llm/llamacpp/fit.go:124-133 | the default policy is sane |
| `Fit.NeverBeyondMemory` | internal/llm/llamacpp/fit.go:246-262 | an accepted model and the system reserve stay within total memory, whatever reclaimable amount is claimed |
| `Fit.AcceptanceIsKept` | internal/llm/llamacpp/fit.go:174-343 | acceptance is kept when model, projector, context, parallelism or download shrink or when available memory, disk or VRAM grow |
| `Catalog.SmallerCandidates` | internal/llm/llamacpp/catalog.go:112-130 | exactly the strictly smaller models of the wanted modality, largest first |
| `Catalog.FirstViable` | internal/llm/llamacpp/catalog.go:200-226 | for any policy: the largest candidate of a class that the gate accepts, with its runtime; none only if the gate accepts none of the class |
| `Catalog.ViableIsAccepted` | internal/llm/llamacpp/catalog.go:200-226 | under the default policy these are the candidates that the formula accepts |
| `Catalog.SuggestSmaller` | internal/llm/llamacpp/catalog.go:142-173 | a suggestion exactly if there is a candidate: the largest viable one, else the smallest, marked as not fitting |
| `Catalog.AutoPick` | internal/llm/llamacpp/catalog.go:189-228 | a strictly smaller model of the modality that fits, for code whenever any such fits, the largest of its class; none exactly if no candidate fits |
| `Launch.NextPick` | cmd/agent/provider.go:239-242 | the pick under the default policy is the best one |
| `Launch.NextRef` | cmd/agent/provider.go:239-247 | a repository not started before, of the best pick, whose start continues the walk; else the walk has given up for a stated reason |
| `Launch.Substitute` | cmd/agent/provider.go:233-280 | the retry loop starts no repository twice and each is the best pick for the refusal just before; its measure is the number of repositories left |
| `Launch.StartRuntime` | cmd/agent/provider.go:226-281 | for any outcomes: at most one start per distinct ladder repository and one more, none twice; running exactly if the last start succeeded, with the reference of that start; a failure has one of the stated reasons |
| `Launch.PicksGoDown` | cmd/agent/provider.go:217-224 | if no refusal reports more bytes than the ladder gave the pick it refuses, each pick is smaller than all before it |
| `Launch.PickBelow` | internal/llm/llamacpp/catalog.go:189-228 | a pick is below a size exactly if no viable candidate of its class is that large |
| `Launch.PickGoesUp` | cmd/agent/provider.go:217-224 | a run in which the second pick is larger than the first, after a refusal that reports more than the ladder says |
| `Chunker.ParagraphsSpread` | internal/rag/chunker.go:177 | splitting at blank lines loses nothing |
| `Chunker.ParagraphsApart` | internal/rag/chunker.go:177 | no paragraph holds a blank line, and none but the last ends where one begins |
| `Chunker.HardSplit` | internal/rag/chunker.go:201-208 | appends the stretches of the limit's length, and a shorter last |
| `Chunker.Overflows` | internal/rag/chunker.go:196-212 | a paragraph that does not fit ends the current piece and is cut or begins the next, and the account of pieces and paragraphs goes on |
| `Chunker.SplitBySize` | internal/rag/chunker.go:173-218 | a body within the limit stays whole; otherwise the pieces are non-empty, within the limit, lie in the body in order with only newlines between and around them, and each is paragraphs in a row, as many as fit, or a stretch of one that is too long; only empty paragraphs are passed over |
| `Chunker.ApplyOverlap` | internal/rag/chunker.go:225-236 | in place, every text but the last becomes itself, a blank line and a prefix of the next original text |
| `Chunker.CutSections` | internal/rag/chunker.go:107-119 | section after section, each cut into such pieces, numbered from 0 in each |
| `Chunker.SetIDs` | internal/rag/chunker.go:122-124 | the id of a chunk is computed from its final text, and from its ordinal as one byte |
| `Chunker.SplitMarkdown` | internal/rag/chunker.go:101-126 | the chunks of all sections under the given limits, or 3000 and 300 where the limit is not positive, overlapped, each with the id of its final text and its number as one byte |
| `Chunker.TextsFit` | internal/rag/chunker.go:96-126 | no text is empty or longer than the limit, a blank line and the overlap |
| `Search.Index.Replace` | internal/rag/index.go:36-40 | the collection stands under its name, the others stay, and names go on matching keys |
| `Search.ScoreAll` | internal/rag/index.go:204-214 | exactly the chunks of the query's dimension at or over the threshold, in order, with their scores |
| `Search.EligibleMeans` | internal/rag/index.go:199-228 | a further chunk is a hit exactly if its vector has the query's length and scores at least the threshold, with its score and the collection's name |
| `Search.TopKInCollection` | internal/rag/index.go:199-228 | the first cap of the stably sorted hits of the collection |
| `Search.BestMeans` | internal/rag/index.go:182-190 | the best hits are the first k of the stable sort, in which no score is below a later one |
| `Search.Index.Gather` | internal/rag/index.go:162-184 | target by target the cut lists of the collections that count, memory never |
| `Search.Index.Search` | internal/rag/index.go:135-191 | the errors for an empty query and for one of zeros, exactly; else the first k (4 by default) of one stable sort of the lists cut at the cap (k by default), over the filter or all names in order |
| `Search.CapDoesNotMatter` | internal/rag/index.go:182-190 | with a cap of at least k the search is the first k of one stable sort of everything eligible |
| `Search.CutCount` | internal/rag/index.go:162-184 | the cut lists hold of a collection its hits up to the cap, as often as the targets name it |
| `Search.CapLimits` | internal/rag/index.go:128-134 | a collection contributes at most the cap to every search if and only if its hits up to the cap, times the times the targets name it, are at most the cap |
| `Search.CapExceeded` | internal/rag/index.go:128-134 | with a cap of 1, a collection with a hit that is named twice contributes two |
| `Search.NamedTwice` | internal/rag/index.go:128-134 | such an index: one collection of one chunk |
| `Search.NamedOnce` | internal/rag/index.go:128-134 | if no target is named twice each counts once, and the cap limits it |
| `Sorting.SortIsStable` | internal/rag/index.go:186 | elements that tie keep their order |
| `Sorting.StableSortIsUnique` | internal/rag/index.go:186 | being sorted with ties in order leaves one result: the stable sort |
| `Sorting.SortOfParts` | internal/rag/index.go:182-186 | sorting two parts and merging them sorts the whole |
| `Text.OneListing` | internal/rag/graph.go:75-79 | a set of strings has one sorted listing |
| `Text.SortedKeys` | internal/rag/graph.go:75-79 | collects the keys, each once, in order |
| `Text.LeqMeans` | internal/rag/graph.go:75-79 | the first difference decides, and a string that ends there goes first |
| `Graph.PairedEdges` | internal/rag/graph.go:191-201 | an edge each way adds exactly the two edges, and only between different chunks not linked before |
| `Graph.PairedSound` | internal/rag/graph.go:191-201 | it keeps the graph symmetric with equal kinds, without loops or second edges, and among known chunks |
| `GraphBuild.Builder.AddEdge` | internal/rag/graph.go:191-201 | the loop adds the edge unless it is a loop or its target is linked already |
| `GraphBuild.Builder.JoinAll` | internal/rag/graph.go:99-107 | afterwards every two members are linked (across sources only, where so asked), and no other edge is new |
| `GraphBuild.Builder.JoinAdjacent` | internal/rag/graph.go:83-86 | neighbours of the list are linked |
| `GraphBuild.Builder.JoinSiblings` | internal/rag/graph.go:87-107 | chunks under one non-empty heading are linked |
| `GraphBuild.CollectMembers` | internal/rag/entities.go:112-117 | each term has exactly the chunks that have it, once and in order of ids |
| `GraphBuild.Builder.JoinShared` | internal/rag/entities.go:105-137 | every two chunks that share a term of the band are linked, and every new edge joins two such chunks |
| `GraphBuild.NextInOrder` | internal/rag/graph.go:80-86 | neighbours by ordinal have no chunk of their source with an ordinal between |
| `GraphBuild.AddSource` | internal/rag/graph.go:80-108 | of one source: neighbours in some order by ordinal are linked, and siblings are |
| `GraphBuild.AddCollection` | internal/rag/graph.go:69-109 | records the chunks, a repeated id taking the later one, and links every source |
| `GraphBuild.BuildGraph` | internal/rag/graph.go:63-115 | the graph is symmetric with equal kinds, without loops or second edges, among exactly the chunks of the collections that are there and no memory; neighbours, siblings and sharers of a term of 2 to 64 chunks (2 to 12 for heading tokens, across sources) are linked, and every edge of every kind stands for just that |
| `GraphExpand.ScanEdges` | internal/rag/graph.go:224-236 | visits the edges of one node as the unbounded search does, until five are out |
| `GraphExpand.ExpandLevel` | internal/rag/graph.go:222-237 | the same for one level |
| `GraphExpand.Expand` | internal/rag/graph.go:208-244 | exactly the first five of the full breadth-first order within the clamped hops |
| `GraphExpand.ReachedByDistance` | internal/rag/graph.go:208-244 | on a sound graph the full order is every node 1 to hops edges from a seed, each once, nearer ones first |
| `GraphExpand.LevelFound` | internal/rag/graph.go:222-237 | within a level nodes come in the order in which the edges of the level before meet them, each at its first meeting |
| `GraphExpand.FewMeansAll` | internal/rag/graph.go:232-234 | if fewer than five come back they are all nodes at distance 1 to hops |
| `Adjacency.FollowsIfRising` | internal/rag/graph.go:80-86 | sorting by ordinal takes the chunks in document order, whatever it does with ties, if and only if their ordinals rise |
| `Adjacency.OneSectionFollows` | internal/rag/chunker.go:108-119 | for the splitter's own numbering that is so if and only if the document has at most one section |
| `Adjacency.SectionEndIsCutOff` | internal/rag/graph.go:80-86 | at the end of a section of three or more pieces the graph of a document has no adjacent edge to the chunk that follows |
| `Fusion.OrderDoesNotMatter` | internal/rag/service.go:549-568 | the fused score of a key is the same for every order of the hits |
| `Fusion.MissMeans` | internal/rag/service.go:549-568 | a hit of the same collection, heading and text leaves the doubt 1 less its score, taken into 0 to 1; any other leaves the result as it is |
| `Fusion.FusedMeans` | internal/rag/service.go:552-567 | a result is, but for its score, the first hit of its key with a vector, or the first at all if none has one |
| `Fusion.MergedMore` | internal/rag/service.go:552-567 | one hit more keeps the map exact: per key 1 minus the product of the doubts, and the first hit with a vector, or the first |
| `Fusion.Merge` | internal/rag/service.go:549-569 | the map holds exactly the keys of all hits, each with its fused result |
| `Fusion.FuseSearchResults` | internal/rag/service.go:545-584 | one fused result for every key, ranked; of these the first k |
| `Fusion.BestK` | internal/rag/service.go:580-583 | nothing left out ranks before anything returned |
| `Fusion.RankedIsOrder` | internal/rag/lexical.go:333-344 | score and tie-break are a total preorder |
| `Fusion.OneRanking` | internal/rag/service.go:570-579 | without ties between different keys the order in which the map gives its values does not matter |
| `Fusion.OnlyRankingIff` | internal/rag/service.go:570-579 | there is one ranking of the fused results if and only if no different keys agree in score, collection, source, heading and id |
| `Fusion.TwoRankings` | internal/rag/service.go:570-579 | two hits that agree in all but their texts have two rankings |
| `Refine.SignatureOf` | internal/refine/loop.go:192-211 | the loop computes the join of the sorted, normalised tags |
| `Refine.SignatureIsTheSet` | internal/refine/loop.go:187-211 | for tags without a bar, equal signatures mean equal sets of tags, and conversely |
| `Refine.EmptySignature` | internal/refine/loop.go:192-211 | the signature is empty exactly if no tag is left |
| `Refine.BarsConfuse` | internal/refine/loop.go:210 | with a bar in a tag two different sets share a signature |
| `Refine.StreakMeans` | internal/refine/loop.go:169-179 | the counter reaches m exactly if the last m + 1 signatures are one and the same and not empty |
| `Refine.StagnantMeans` | internal/refine/loop.go:169-179 | for tags without a bar the last m + 1 signatures are one and not empty exactly if the last m + 1 judged rounds have the same non-empty set of tags |
| `Refine.Consider` | internal/refine/loop.go:161-179 | keeps the earliest judged answer with fewest failure modes, and stops exactly at stagnation |
| `Refine.JudgeRound` | internal/refine/loop.go:133-181 | a judged round ends the run as specified or the invariant of the loop goes on |
| `Refine.RoundsMade` | internal/refine/loop.go:100-140 | each round of a run is what the generator makes of the last verdict before it and the judge of that answer; a judge that cannot be reached does not pass it |
| `Refine.UsableWasJudged` | internal/refine/loop.go:133-160 | a usable end means that the judge answered and passed the last answer |
| `Refine.Run` | internal/refine/loop.go:92-185 | for any generator and judge: fails exactly if the first round generates nothing; each round is what they make of those before it, the judge failing closed; at most MaxIters rounds numbered in order; usable exactly if the last round was, with its answer, else the earliest judged answer with fewest modes; no progress exactly at m + 1 equal non-empty signatures and never earlier |
| `Refine.StopsAtSameModes` | internal/refine/loop.go:92-185 | for tags without a bar a run that is not usable stops for want of progress exactly if its last m + 1 judged rounds fail in the same non-empty set of ways, and no earlier rounds did |
| `Scheduler.SplitWeights` | internal/cluster/scheduler.go:261-272 | valid exactly if every value parses and none is negative; then the weights and their sum |
| `Scheduler.NodeShares` | internal/cluster/scheduler.go:253-297 | the shares of the split, else of the memories, else equal ones |
| `Scheduler.SharesSumToOne` | internal/cluster/scheduler.go:253-297 | in every branch the shares sum to 1 |
| `Scheduler.SharesInProportion` | internal/cluster/scheduler.go:253-297 | shares stand to each other as the numbers of the split if there is one for each node, none negative and not all zero; else as the memories if these add up to more than 0; else they are all the same |
| `Scheduler.SharesNonNegative` | internal/cluster/scheduler.go:253-297 | the shares are non-negative if and only if a split is used, the total memory is not positive, or no memory is negative |
| `Scheduler.NegativeShare` | internal/cluster/scheduler.go:282-291 | a configuration of two nodes that passes the check of nodes and models (internal/cluster/config.go:334-376) and gives one of them a negative share |
| `Scheduler.AllNodesWithinSafeBudget` | internal/cluster/scheduler.go:204-226 | true exactly if every node's rounded slice and reserve are within its budget |
| `Scheduler.FitsMeans` | internal/cluster/scheduler.go:217-241 | a node passes exactly if its share of the size, rounded, and a GB for every 2048 tokens of context (at least 2, and 2 where none is given) are within its budget: the coordinator's memory less its reserve, a worker's cap or else half its memory |
| `Scheduler.GateConserves` | internal/cluster/scheduler.go:194-226 | a model the gate accepts for n nodes is smaller than their budgets together less n reserves plus n halves |
| `Placement.TotalMemory` | internal/cluster/manager.go:258-273 | the memory of the nodes not known to be unreachable |
| `Placement.ReachableMeans` | internal/cluster/manager.go:258-273 | memory adds up, and a node known to be unreachable adds nothing |
| `Placement.MemoryFits` | internal/cluster/scheduler.go:152-192 | the gate, spelled out for the local and the distributed backends |
| `Placement.Manager.EnsureStarted` | internal/cluster/manager.go:151-172 | starts a known backend for the model unless it runs, and then leaves it with the model it runs for; a failure changes nothing |
| `Placement.Manager.SelectBackend` | internal/cluster/scheduler.go:43-113 | for any answers of the backends: the first candidate of the order that is enabled, admitted, known, not reported missing, starts and is healthy; else the local one, under its own gate and not in strict mode; nothing after the choice is started |
| `Placement.ChoiceMeans` | internal/cluster/scheduler.go:43-113 | spelled out: the first candidate that is enabled, admitted, known, not reported missing, running or started by then, and healthy is chosen; else the local backend exactly if that is allowed and comes up; what runs then ran before or was offered up to the choice and started |
| `Placement.OnlyAdmittedStart` | internal/cluster/scheduler.go:43-113 | every backend that gets started passed its memory gate; the chosen one runs and passed it; strict mode never chooses or starts the local one |
| `Placement.OneNodeFirst` | internal/cluster/scheduler.go:160-175 | a model the coordinator can host alone starts no other backend unless distribution is forced |
| `Placement.ClusterHoldsModel` | internal/cluster/scheduler.go:176-191 | a model put on the cluster is backed by reachable memory and by the budgets of all nodes together |
| `Placement.ServesRequested` | internal/cluster/manager.go:159-161 | the chosen backend was started for the requested model if and only if it did not run before the request or ran for that model |
| `Placement.OtherModelServed` | internal/cluster/manager.go:159-161 | two selections of which the second model gets the local backend that was started for the first |

## Left out

- JSON, HTTP, UTF-8 decoding and SHA-256: functions or free choices. Strings are sequences of characters, so what the code counts in bytes (compact.EstimateTokens) is counted in characters.
- File modes, symbolic links, inode checks, fsync and directory creation: their failures are the failures of the steps that contain them.
- Saving and loading cached manifests: any manifest that lists what its commit publishes may come out of either; that two manifests of one commit agree on shared file names is assumed.
- The processes of the protocol run one installation each; a second call of the same process is another process.
- FileLock.AcquireFileLock: the context is a bound on the number of attempts, and a flock error other than "would block" is not modelled; that the descriptor was just opened is a precondition.
- Agent.Loop.Run: replies, the sink's answers and the verification note are parameters; so are what tools, retrieval and the compactor give in each round; the context_search tool, conversation memory and tool definitions are not modelled.
- Wire.BuildRequest: model, token limit, temperature and tool schemas of the request.
- Stream.ChatStream: the scan for data lines and the decoding of an event; finish reason and usage.
- Sse.Encoder: a failing write, and flushing. The reader's status check and the abort signal before the first read.
- Gguf: a file is its bytes; the buffered reader and its errors other than the end of the file are not modelled.
- Fit.EstimateFit: the texts of reasons and limitations; on the two overflow returns the code attaches no suggestion, and attaching one is modelled by Catalog.SuggestSmaller alone.
- Catalog: parameter counts and notes of the ladder. Launch: retuning between starts (internal/llm/llamacpp/tune.go) only changes what the next start may answer.
- Chunker.SplitMarkdown: finding the sections (splitByHeadings) and hashing; the sections are its input.
- Search.Index: the read-write lock; cosine similarity is a function of two real vectors.
- GraphBuild: the regular expressions and stop lists of entities and heading tokens are functions from a chunk to its terms.
- Fusion: a key is the triple of its parts, which the code joins with NUL characters. Scores are reals; rounding of float32 is not modelled.
- Augment and groundingBudget (internal/rag/service.go), BM25 and the embedders.
- Refine.Run: the text of the brief (it is made from the verdict that the generator is given instead), durations, the round callback and the round timeout.
- Scheduler.NodeShares: shares are reals; tensor_split values that are not finite ("Inf", "NaN") are not modelled, and the trimming and splitting of the text is its input. Conversion of a float beyond the integer range is not modelled.
- Fit.AgreesIffSane: says nothing of a policy that is not sane and whose scratch and reserve leave less than six EiB of the largest host, or whose headroom is at most 16 bytes too large; there gaps between the runtimes of models may hide the difference.
- Scheduler.PassesCheck: the bind host, and naming the coordinator.
- Placement: nodes with one id twice, which the configuration check refuses; stopping backends; logging and warnings; two selections at once.
- React UI, SQLite stores, host and GPU probing, process supervision and flag wiring.
