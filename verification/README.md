# Attached: verified protocols

Attached publishes a host over Iroh, keeps an encrypted catalog of published hosts in a worker, and lets
clients reach those hosts through a shared local broker. This project models the parts of it whose promises
are about *every run* or *every input*, and proves those promises:

* **Self-update handoff** (`Handoff`, `HandoffInvariant`, `HandoffHistory`, `HandoffMessages`,
  `HandoffAnswers`, `HandoffAlways`, `HandoffRuns`, `HandoffMask`, `HandoffBreach`, `HandoffRollback`,
  `HandoffOutcomes`, `HandoffSuccess`, `Installation`, `UpdateClient`).
  A server installs a newer binary, spawns it as a candidate, closes its endpoint, activates the candidate and
  commits or rolls back; a committed candidate may do the same again. Every process ever spawned is an entry of
  a sequence, every atomic action of one process is a step, and any number of clients confirm concurrently.
* **Discovery reconciler** (`DiscoveryTrace`, `Discovery`, `DiscoveryReport`, `DiscoveryReconciler`, `DiscoveryWorker`).
  A class with the source's fields, working against a registry, a readiness source, a clock and a state file
  that answer arbitrarily and may crash the worker inside any call. A ghost trace records what happened.
* **Canonical descriptor** (`Utf8Text`, `Canonical`, `CanonicalCodec`, `Envelope`).
  The hand-written encoder and strict decoder of deterministic CBOR (sections 3 and 4.2.1 of RFC 8949), and the
  acceptance window of a sealed descriptor.
* **Lease cache and broker** (`LeaseCache`, `Broker`, `BrokerStartup`).
* **Record store** (`StoreTable`, `Store`).
* **Clipboard helpers** (`Clipboard`).

Where tasks or processes interleave (handoff, broker, clipboard), the code is a step machine: `Enabled` holds
the source's guards, `Apply` its assignments, and a run is any enabled sequence. Where one object is updated in
place (reconciler, decoder, lease cache, store, prepared update), it is a class.

## Findings

Five promises turned out not to hold as one would state them. Each is kept as the code has it, with a concrete
run and an exact condition.

* A Start request is refused only while the candidate's disposition is `Pending` (`server.rs:717-724`). A
  candidate that has already read Abort, but has not exited, may accept one. Two things can then go wrong, and
  each has its exact condition. The installed version can come to differ from the serving one if and only if a
  living parent may still roll the accepting server back (`HandoffRuns.StartSafeIff`); the abandoned updater runs
  in its own process group, so this takes nothing but the parent's rollback. Two processes can come to hold the
  endpoint if and only if, besides, the candidate's serving loop has not chosen its outcome yet and a newer
  version exists (`HandoffBreach.StartDoublesIff`, with `HandoffBreach.TwoBound` as a concrete run); in every run
  without such a harmful Start at most one process holds it (`HandoffBreach.HarmlessOneBound`). The doubling needs
  the serving loop not to be polled between the cancellation that Abort triggers and the end of the preparation,
  after which its `select!` may take the handoff although the cancellation is ready too.
  `HandoffRuns.UnguardedIsAborted` shows that only that aborted candidate is concerned. Everything else the
  protocol promises (commitment, answers, event streams, histories, rising versions) is proved for every run.
* A failed restore deletes the retained binary: the temporary file disappears with its handle whether or not
  the rename worked (`Installation.LoseBinary` is a run, the contract of
  `Installation.PreparedRemoteUpdate.RestoreBackup` the exact condition).
* A user's copy can be cleared: `Clipboard.UserCopyLost` is a run, `Clipboard.CopyClearedIff` the exact
  condition at the moment of copying.
* Finishing without clear errors is not enough for the bundle to be gone: a clipboard that cannot be read counts
  as not matching (`Clipboard.UnreadableLeavesBundle`). `Clipboard.BundleRemainsIff` is the exact condition over
  whole runs.
* A record's revision is the number of successful puts only if no answer was lost after its write took effect
  (`Store.LoseAnswer` is a run with revision 1 and no success). `Store.RevisionIff` is the exact condition on the
  requests: none of the record's puts was accepted, with an account, and then could not be read back.

## Model

| member | source | states |
|---|---|---|
| HandoffInvariant.InitInv | crates/cli/src/server.rs:196-223 | a fresh server satisfies the invariant |
| HandoffInvariant.StepKeeps | crates/cli/src/server.rs:326-518 | every guarded step, of any process of an unbounded chain, keeps the whole invariant (control, endpoint claims, disk, verdicts, event streams) |
| HandoffInvariant.RunKeeps | crates/cli/src/server.rs:326-420 | the invariant holds after every guarded run |
| HandoffAlways.FamilyKeeps | crates/cli/src/server.rs:567-601 | every step the source takes, the unrefused Start included, keeps the process tree: stages fit, a living process's candidate is its own and newer |
| HandoffAlways.VerdictsKeep | crates/cli/src/server.rs:422-518 | every such step keeps the verdicts: commits and rollbacks are disjoint, and a committed candidate's parent is past rolling back |
| HandoffAlways.CopiedKeeps | crates/cli/src/installation.rs:86-127 | every such step keeps a rollback copy with each update until it is committed |
| HandoffMessages.ToldKeeps | crates/cli/src/serve_handoff.rs:153-180 | every such step keeps that commands are really sent: a committed candidate has Commit unread or acted on, one being rolled back Abort, one being confirmed Activate |
| HandoffAnswers.AddressedKeeps | crates/cli/src/server.rs:608-632 | every such step keeps that an open confirmation is of the request that opened it: it waits for a verdict only at the candidate whose operation and version it named |
| HandoffAnswers.TruthfulKeeps | crates/cli/src/server.rs:627-651 | every such step keeps that each Committed reply is to a request that named this operation and this version, and that the operation was committed |
| HandoffAlways.AlwaysRuns | crates/cli/src/server.rs:326-420 | so does every run |
| HandoffInvariant.QuietStep | crates/cli/src/serve_handoff.rs:291-324 | steps that only exchange messages keep control and verdicts |
| HandoffInvariant.EndStep | crates/cli/src/serve_handoff.rs:182-229 | exits, crashes and shutdowns keep control and verdicts |
| HandoffInvariant.MovingStep | crates/cli/src/server.rs:567-601 | preparation, spawning, closing and activation keep control and verdicts |
| HandoffInvariant.DecidingStep | crates/cli/src/server.rs:422-483 | commit and rollback keep control and verdicts |
| HandoffInvariant.OwnEvents | crates/cli/src/server.rs:608-662 | whatever a process does, its own event stream stays well formed |
| HandoffInvariant.AskTokens | crates/cli/src/server.rs:627-632 | of any number of concurrent confirmations at most one announces the consumer |
| HandoffRuns.OneBound | crates/cli/src/server.rs:402-418 | in every state that guarded steps reach, however long the chain of handoffs, at most one process has the endpoint bound |
| HandoffRuns.CommitStands | crates/cli/src/server.rs:422-518 | in every run: Commit is sent only after Prepared, Ready, ConsumerConnected; afterwards, in every later state, that candidate is not rolled back and its parent never claims the endpoint |
| HandoffRuns.CommittedStands | crates/cli/src/server.rs:608-662 | in every run: a client told Committed(v) asked about an operation that was committed, is never rolled back in any later state, and runs v, the version the client named |
| HandoffRuns.MismatchNeverAnswered | crates/cli/src/server.rs:616-626 | in every run: a confirmation that names another operation than the server asked, or another version than it runs, is never answered Committed |
| HandoffRuns.MatchIsAnswered | crates/cli/src/server.rs:627-651 | a confirmation that names a committed candidate's own operation and version is answered Committed by its next two actions |
| HandoffRuns.CommandsSent | crates/cli/src/server.rs:485-518 | in every run: a committed candidate was sent Commit, one being rolled back Abort, one past the first confirmation step Activate |
| HandoffRuns.EventStream | crates/cli/src/server.rs:776-786 | in every run: a candidate's events are a prefix of Prepared, Ready, ConsumerConnected, ClientSucceeded, optionally then Failed; ClientSucceeded only after Commit was received |
| HandoffRuns.RunExtends | crates/cli/src/serve_handoff.rs:301-318 | along every run, guarded or not, a disposition is written once and events, commits, rollbacks and answers only grow |
| HandoffRuns.InstalledVersion | crates/cli/src/server.rs:567-606 | with no preparation or handoff outstanding the installed version is the serving one and nobody owns a rollback copy |
| HandoffRuns.RollbackRestores | crates/cli/src/installation.rs:112-127 | by guarded steps: an update that ends without a commit leaves its own server's version installed and no copy |
| HandoffRollback.FailedUpdateRestores | crates/cli/src/installation.rs:86-127 | in every run: an update that ends without a commit puts back the very executable that was installed when the Start was accepted, whatever the updater and other servers did meanwhile |
| HandoffRollback.CanStop | crates/cli/src/server.rs:402-418 | a server that is not updating can always be stopped, touching neither another process nor the installed executable |
| HandoffRollback.ServesAgain | crates/cli/src/server.rs:430-446 | after a rollback the old server can bind, serve and accept another Start, with its copy installed |
| HandoffOutcomes.HandsToReported | crates/cli/src/server.rs:485-518 | in every run: a server announces a restart, closes and hands over only with a candidate that reported Prepared of its own version, and waits for a consumer only with one that reported Ready |
| HandoffOutcomes.FailedNeverCommitted | crates/cli/src/server.rs:279-285 | in every run: a candidate that fails to start reports Failed, and is never committed afterwards |
| HandoffOutcomes.HeldUntilDecided | crates/cli/src/server.rs:633-651 | in every run: a confirmation that waits is held until the verdict is there, unless its client goes away or the candidate ends |
| HandoffOutcomes.OrphanNeverAnswers | crates/cli/src/serve_handoff.rs:301-318 | in every run: a candidate that loses its parent before a verdict never answers Committed to a request it has not answered yet |
| HandoffOutcomes.SupervisorStays | crates/cli/src/serve_handoff.rs:182-229 | in every run: a server that has handed over stays as supervisor while its candidate lives, unless it is killed or itself rolled back |
| HandoffSuccess.UpdateCanSucceed | crates/cli/src/server.rs:326-518 | from every state in which a server may take a Start, guarded steps can update it to any newer version: the candidate serves and is committed, its client is told Committed of that version, its four events are reported in order, and no copy is left |
| HandoffRuns.ChainBounded | crates/cli/src/installation.rs:164-195 | in every run: versions strictly increase along committed handoffs, so no chain is longer than 2^96 |
| HandoffRuns.BelowIff | crates/tunnel-protocol/src/lib.rs:20-25 | the order of versions is that of their three numbers read as one |
| HandoffRuns.UnguardedIsAborted | crates/cli/src/server.rs:717-724 | the only Start accepted by a server that may still be rolled back is taken by an aborted candidate |
| HandoffRuns.StartSafeIff | crates/cli/src/server.rs:717-734 | after an accepted Start some run makes the installed version differ from the serving one, if and only if a living parent may still roll the server back |
| HandoffBreach.FinishAsks | crates/cli/src/server.rs:791-796 | the confirmations a server holds can always be finished, changing nothing but what it reported |
| HandoffBreach.ParentRebinds | crates/cli/src/server.rs:430-446 | whatever its candidate does, a parent that has not committed can reap it and bind again, touching no third process |
| HandoffBreach.HandedCanDouble | crates/cli/src/server.rs:717-734 | if a candidate that may still be rolled back accepts a Start while its loop runs and a newer version exists, guarded steps alone lead to two bound processes |
| HandoffBreach.HarmlessOneBound | crates/cli/src/server.rs:402-418 | in every run without a harmful Start at most one process has the endpoint bound |
| HandoffBreach.HarmlessCannotDouble | crates/cli/src/server.rs:814-826 | nor do two after an accepted Start that is not harmful: the server cannot be rolled back, its loop is leaving, or no newer version exists |
| HandoffBreach.StartDoublesIff | crates/cli/src/server.rs:717-734 | in every state that a run reaches without a harmful Start, an accepted Start can lead to two processes holding the endpoint if and only if it is harmful: the server may still be rolled back, its loop has not chosen its outcome and a newer version exists |
| HandoffBreach.TwoBound | crates/cli/src/server.rs:814-826 | a concrete run from a fresh server in which two processes hold the endpoint |
| HandoffMask.CoreKeeps | crates/cli/src/server.rs:326-518 | who may bind the endpoint stays decided under every guarded step, whatever the disk holds |
| HandoffMask.VisibleCommutes | crates/cli/src/server.rs:814-826 | masking the update of a server that can never take a handoff commutes with every other step |
| HandoffMask.HiddenKeeps | crates/cli/src/server.rs:734-773 | the steps of the masked update keep the masked state inside the protocol |
| HandoffMask.SetCommutes | crates/cli/src/server.rs:814-826 | likewise for any set of such servers |
| HandoffMask.SetKeeps | crates/cli/src/server.rs:326-518 | every step but a harmful Start keeps the masked state inside the protocol |
| HandoffMask.SetRuns | crates/cli/src/server.rs:326-420 | so does every run without one |
| HandoffMask.SetOneBound | crates/cli/src/server.rs:402-418 | and then at most one process has the endpoint bound |
| Installation.PreparedRemoteUpdate.RestoreBackup | crates/cli/src/installation.rs:198-211 | the previous binary is back exactly when the sync and the rename worked; the copy is gone either way |
| Installation.PreparedRemoteUpdate.Commit | crates/cli/src/installation.rs:101-110 | takes the copy, leaves the executable alone, and the later drop restores nothing |
| Installation.PreparedRemoteUpdate.Rollback | crates/cli/src/installation.rs:112-118 | takes the copy and puts it back exactly when the file system calls work |
| Installation.PreparedRemoteUpdate.Drop | crates/cli/src/installation.rs:121-127 | an undecided update is restored, a decided one is untouched |
| Installation.Prepare | crates/cli/src/installation.rs:133-196 | succeeds exactly on an intact, answering, not older binary; every failure rolls back, and the old binary is back exactly when the rollback's own calls work |
| Installation.Update | crates/cli/src/installation.rs:86-211 | over a whole update the executable ends as the new one only if it was committed or could not be put back, and no copy is left but one that could not be removed |
| Installation.LoseBinary | crates/cli/src/installation.rs:198-211 | a concrete run: a rollback whose rename fails leaves the updater's binary installed and no copy of the old one |
| UpdateClient.ConfirmCandidate | crates/cli/src/remote_update.rs:107-161 | answer by answer: Committed(v) ends it with success if v is the announced version and with an error otherwise, Current of that version with success, Failed(m) with m, and nothing else ends it before the deadline; attempts are what the network makes of them, paced by the doubling delay, each inside the deadline, at most 63; the timeout carries the latest answer other than Busy or Waiting |
| UpdateClient.DelayIs | crates/cli/src/remote_update.rs:116-159 | the pauses are 100, 200, 400 and 800 ms and then one second each |
| UpdateClient.ConfirmUntil | crates/cli/src/remote_update.rs:115-160 | the same loop against any later deadline: the outcome is the first settling answer, or, once the client wakes at or after the deadline, the timeout with the latest complaint |
| UpdateClient.RequestUpdate | crates/cli/src/remote_update.rs:32-76 | the whole request, answer by answer: direct answers, refusal, the deadline check, and what follows after Restarting |
| UpdateClient.SuccessStands | crates/cli/src/remote_update.rs:140-146 | in every run, if the Committed replies to the client are replies to its own requests, a client that ends with one has the update for good: the operation it asked about was committed, is never rolled back, and runs the announced version |
| UpdateClient.AttemptsBounded | crates/cli/src/remote_update.rs:115-159 | every paced sequence of attempts with a deadline of at most a minute has at most 63 of them |
| UpdateClient.AskBusyServer | crates/cli/src/remote_update.rs:107-161 | run against a server that stays busy for a minute the client makes exactly 63 attempts and times out without a complaint |
| UpdateClient.SleptLong | crates/cli/src/remote_update.rs:158-159 | the pauses of n attempts add up to 1.5 s plus one second for each after the fourth |
| DiscoveryTrace.RemovalJustified | crates/herdr-plugin/src/discovery.rs:55-97 | every removal in a trustworthy run: an earlier add returned that very profile, the latest listing shows it with that target, and three complete checks of new generations missed the endpoint with no restart, failure, incomplete report or listing in between |
| DiscoveryTrace.AddJustified | crates/herdr-plugin/src/discovery.rs:156-161 | every add in a trustworthy run comes directly after a positive readiness answer for that endpoint, and the latest listing has no machine under its target |
| DiscoveryTrace.NoticeJustified | crates/herdr-plugin/src/discovery.rs:182-201 | every notice announces an earlier add of its endpoint under the name it was added with |
| DiscoveryTrace.ThreeMisses | crates/herdr-plugin/src/discovery.rs:73-95 | three absences are three distinct checks missing the endpoint that nothing since made forget |
| DiscoveryTrace.DeletionStands | crates/herdr-plugin/src/discovery.rs:123-191 | while saves succeed an endpoint is added again only after the reconciler itself removed it |
| DiscoveryTrace.AddKeeps | crates/herdr-plugin/src/discovery.rs:178-190 | an add of an unseen, unlisted endpoint keeps the run trustworthy, with the state about to be saved |
| DiscoveryTrace.RemoveKeeps | crates/herdr-plugin/src/discovery.rs:82-92 | a removal of an owned, still listed profile after three absences keeps it so |
| DiscoveryTrace.NotifyKeeps | crates/herdr-plugin/src/discovery.rs:192-201 | an accepted notice of a pending entry keeps it so; notices never exceed adds |
| DiscoveryTrace.CrashKeeps | crates/herdr-plugin/src/state.rs:34-48 | a crash or failed save with either state on disk keeps ownership founded, and balance unless something was unsaved |
| DiscoveryTrace.DropKeeps | crates/herdr-plugin/src/discovery.rs:63-72 | forgetting a profile the user removed keeps it so |
| DiscoveryTrace.SeenKeeps | crates/herdr-plugin/src/discovery.rs:131-134 | remembering a manual entry keeps it so |
| Discovery.World.Save | crates/herdr-plugin/src/state.rs:34-48 | the file holds the old state or the new one, and a writable state stays sound whatever happens |
| Discovery.World.Load | crates/herdr-plugin/src/state.rs:25-32 | returns what was saved, fails, or never returns |
| DiscoveryReport.ValidateHosts | crates/herdr-plugin/src/attached.rs:114-140 | a report is accepted exactly when every host has a 64-digit hexadecimal identity, a label of the allowed characters and its own target, and equal identities are equal hosts; what is passed on are its hosts, each once |
| DiscoveryReconciler.SortOrders | crates/herdr-plugin/src/discovery.rs:116-121 | the candidates are a permutation of the report, untried hosts first, then by deadline |
| DiscoveryReconciler.CandidatesInOrder | crates/herdr-plugin/src/discovery.rs:116-121 | the same with the order written out: untried, then by deadline and failures |
| DiscoveryReconciler.LabelCountIs | crates/herdr-plugin/src/discovery.rs:112-115 | the count of a label is the number of reported hosts that have it, in any case |
| DiscoveryReconciler.PresentIff | crates/herdr-plugin/src/discovery.rs:127-131 | a host counts as registered exactly under its own target, or under its label if that is unique and no endpoint identity |
| DiscoveryReconciler.DisplayIs | crates/herdr-plugin/src/discovery.rs:147-155 | a unique label is the display name, any other is cut to 60 characters and followed by eight of the endpoint |
| DiscoveryReconciler.Backoff | crates/herdr-plugin/src/discovery.rs:166-173 | the delay after a failure is 30 seconds doubled for each earlier failure, four at most, and never more than 300 |
| DiscoveryReconciler.Reconciler.constructor | crates/herdr-plugin/src/discovery.rs:25-33 | nothing is remembered but the saved state |
| DiscoveryReconciler.Reconciler.ResetAbsences | crates/herdr-plugin/src/discovery.rs:35-37 | all absences are forgotten |
| DiscoveryReconciler.Reconciler.AskAndAdd | crates/herdr-plugin/src/discovery.rs:156-163 | nothing is added on a negative answer, a failure means that one of the two calls failed, and a profile means a positive answer followed by the add that returned it |
| DiscoveryReconciler.Reconciler.TryHost | crates/herdr-plugin/src/discovery.rs:141-187 | one attempt: an entry results exactly from a positive readiness answer and an add that returned; a negative answer leaves a retry in 30 s with the failures so far, an error the back-off with one failure more; the entry holds the profile the registry returned, in a state that is safe to save |
| DiscoveryReconciler.Reconciler.Consider | crates/herdr-plugin/src/discovery.rs:123-191 | one candidate: attempted only below the limit, unseen, unlisted and past its deadline; passed over only if seen, before its deadline or at the limit; what is saved is nothing, that it was seen, or its new entry |
| DiscoveryReconciler.Reconciler.SweepOne | crates/herdr-plugin/src/discovery.rs:123-191 | one round of the loop advances its progress by one candidate |
| DiscoveryReconciler.Reconciler.AnnounceOne | crates/herdr-plugin/src/discovery.rs:193-200 | one pending entry: accepted and saved, or still pending, with exactly those events |
| DiscoveryReconciler.Reconciler.Announce | crates/herdr-plugin/src/discovery.rs:192-201 | every pending entry is shown under its name; exactly those accepted are no longer pending, and each acceptance is saved; ownership is unchanged |
| DiscoveryReconciler.Reconciler.Sweep | crates/herdr-plugin/src/discovery.rs:122-191 | the loop over candidates, with its progress after any number of them |
| DiscoveryReconciler.Reconciler.PollListed | crates/herdr-plugin/src/discovery.rs:112-191 | the attempts of a poll, once the state is loaded and the registry listed |
| DiscoveryReconciler.Reconciler.Poll | crates/herdr-plugin/src/discovery.rs:99-203 | at most four attempts, none before its deadline, untried before retried; afterwards no untried host is left, or four fewer and nothing was retried; the next attempt is at least 30 s away; what is still pending was shown in this poll and not accepted |
| DiscoveryReconciler.ProgressStep | crates/herdr-plugin/src/discovery.rs:123-177 | one candidate keeps the loop's progress |
| DiscoveryReconciler.ProgressEnds | crates/herdr-plugin/src/discovery.rs:116-177 | at the end of the loop four distinct untried hosts were attempted or none is left |
| DiscoveryReconciler.Reconciler.PruneOne | crates/herdr-plugin/src/discovery.rs:59-95 | one owned entry: dropped if and only if its profile is gone or was removed; removal is tried exactly at the third miss and after; a removed endpoint is forgotten, a dropped one stays seen |
| DiscoveryReconciler.Reconciler.RemoveOwned | crates/herdr-plugin/src/discovery.rs:82-95 | a removal that succeeds forgets the entry, its counter and its retry and saves that; one that fails leaves everything as it was |
| DiscoveryReconciler.Reconciler.PruneNext | crates/herdr-plugin/src/discovery.rs:59-95 | one round of the loop leaves one entry fewer to visit and the rest as specified |
| DiscoveryReconciler.Reconciler.PruneListed | crates/herdr-plugin/src/discovery.rs:59-95 | the loop over all owned entries: each that is gone was no longer listed or was removed, each kept with three misses could not be removed |
| DiscoveryReconciler.Reconciler.Prune | crates/herdr-plugin/src/discovery.rs:55-97 | afterwards every owned profile is listed, exactly the absent ones are counted, once more than before, and no counter exceeds the real absences; every entry that went was unlisted or removed, and one with three misses could not be removed |
| DiscoveryReconciler.Reconciler.Check | crates/herdr-plugin/src/discovery.rs:39-53 | a check keeps everything consistent, and the generation advances only on success; an incomplete report clears the counters, a repeated generation changes none, and a new one counts every owned entry that is not reported, removing those with three misses unless the registry fails |
| DiscoveryReconciler.Reconciler.Forget | crates/herdr-plugin/src/lifecycle.rs:205-218 | a failed check or a disabled plugin clears the counters |
| DiscoveryWorker.Restarted | crates/herdr-plugin/src/discovery.rs:25-33 | a new worker is consistent with the saved state |
| DiscoveryWorker.Work | crates/herdr-plugin/src/app.rs:133-152 | any number of checks, failures, restarts and crashes from an empty state give a trustworthy run, and a saved state that agrees with it |
| DiscoveryWorker.PollRepeatedly | crates/herdr-plugin/src/discovery.rs:116-177 | within ceil(N/4) complete polls of one report each of its N untried hosts was attempted or found registered |
| Canonical.Validate | crates/session-sync-protocol/src/canonical.rs:104-132 | a valid descriptor has whole seconds, a lifetime of 60 to 900 s and ASCII texts |
| Canonical.ValidateIs | crates/session-sync-protocol/src/canonical.rs:104-132 | exactly which descriptors are accepted and which error each other one gets: the label rule byte by byte, whole non-negative seconds, a lifetime of 60 to 900 s, an ASCII ticket of 1 to 4,096 bytes that is accepted |
| Canonical.Bytes | crates/session-sync-protocol/src/canonical.rs:165-193 | no valid descriptor encodes to more than 4,236 bytes |
| Canonical.LongestEncoding | crates/session-sync-protocol/src/canonical.rs:189-191 | and 4,236 is reached with every accepted ticket of the largest size |
| Canonical.HeadIff | crates/session-sync-protocol/src/canonical.rs:287-321 | a head is read as v exactly where the shortest head of v stands, for all u64 |
| Canonical.HeadBytes | crates/session-sync-protocol/src/canonical.rs:349-369 | the bytes of a head, for each of its five sizes |
| Canonical.EncodingIs | crates/session-sync-protocol/src/canonical.rs:165-193 | the bytes of an encoding, field by field: map head, keys 0 to 6 and the bytes of each value |
| Canonical.TextIff | crates/session-sync-protocol/src/canonical.rs:340-346 | a text is read exactly where its encoding stands and it is well-formed UTF-8 of allowed size |
| Utf8Text.Utf8Iff | crates/session-sync-protocol/src/canonical.rs:340-346 | a text passes the UTF-8 test exactly when it is the encoding of some sequence of Unicode scalar values |
| Canonical.FieldsIff | crates/session-sync-protocol/src/canonical.rs:201-230 | the field reader yields d exactly on the encoding of d |
| Canonical.ParseIff | crates/session-sync-protocol/src/canonical.rs:195-242 | the decoder without its final comparison accepts exactly the encodings of valid descriptors |
| Canonical.ComparisonNeverFires | crates/session-sync-protocol/src/canonical.rs:243-246 | the re-encode comparison never changes the result, on any byte string |
| Canonical.DecodeIff | crates/session-sync-protocol/src/canonical.rs:195-248 | decoding yields d if and only if d is valid and the input is its encoding |
| Canonical.RoundTrip | crates/session-sync-protocol/src/canonical.rs:165-248 | the encoder's limit branch is unreachable, decoding inverts encoding, encoding is injective |
| CanonicalCodec.Decoder.Byte | crates/session-sync-protocol/src/canonical.rs:267-274 | the in-place reader computes the reference reader and its position |
| CanonicalCodec.Decoder.Take | crates/session-sync-protocol/src/canonical.rs:275-286 | likewise, with the overflow error |
| CanonicalCodec.Decoder.Head | crates/session-sync-protocol/src/canonical.rs:287-321 | likewise, rejecting every longer-than-needed head |
| CanonicalCodec.Decoder.Key | crates/session-sync-protocol/src/canonical.rs:325-331 | likewise |
| CanonicalCodec.Decoder.FixedBytes | crates/session-sync-protocol/src/canonical.rs:332-339 | likewise |
| CanonicalCodec.Decoder.Text | crates/session-sync-protocol/src/canonical.rs:340-346 | likewise |
| CanonicalCodec.Decoder.Time | crates/session-sync-protocol/src/canonical.rs:254-257 | likewise, for timestamps that can be represented |
| CanonicalCodec.Decoder.Fields | crates/session-sync-protocol/src/canonical.rs:202-230 | likewise, for all seven fields |
| CanonicalCodec.Decode | crates/session-sync-protocol/src/canonical.rs:195-248 | the decoder as it runs computes the reference decoder, errors included |
| CanonicalCodec.PutHead | crates/session-sync-protocol/src/canonical.rs:349-369 | appends the shortest head |
| CanonicalCodec.PutDescriptor | crates/session-sync-protocol/src/canonical.rs:169-188 | appending field by field gives the one encoding |
| CanonicalCodec.Encode | crates/session-sync-protocol/src/canonical.rs:165-193 | the encoder as it runs computes the reference encoder, errors included |
| Envelope.AadBinds | crates/session-sync-protocol/src/crypto.rs:90-97 | the associated data determines account and record |
| Envelope.AadFields | crates/session-sync-protocol/src/crypto.rs:90-97 | the associated data byte by byte: the domain and its zero, the account, the record, version 1 |
| Envelope.SealSucceeds | crates/session-sync-protocol/src/crypto.rs:117-139 | sealing succeeds exactly for valid descriptors, with at most 4,252 bytes of ciphertext |
| Envelope.OpenIff | crates/session-sync-protocol/src/crypto.rs:141-175 | opening yields d if and only if the envelope carries the valid d and the clock is in the half-open window from 60 s before issue to expiry |
| Envelope.OpenCarried | crates/session-sync-protocol/src/crypto.rs:141-175 | what opening an envelope that carries a valid descriptor answers: the descriptor inside its window, Expired outside, InvalidField at the end of time |
| Envelope.OpenRefuses | crates/session-sync-protocol/src/crypto.rs:141-163 | what is longer than 65,792 bytes is refused as such, and what nobody sealed for this account and record is not decrypted |
| Envelope.ReplayWindow | crates/session-sync-protocol/src/crypto.rs:164-174 | all readings at which one envelope opens lie within 960 s, and it opens at every reading between two of them, to the same descriptor |
| LeaseCache.Descriptors.constructor | crates/cli/src/publisher_descriptor.rs:26-33 | starts from the given descriptor with no attempt made |
| LeaseCache.Descriptors.Observe | crates/cli/src/publisher_descriptor.rs:39-48 | ignored during a fetch; otherwise replaces exactly by a record of the same publisher that is not older |
| LeaseCache.Descriptors.Get | crates/cli/src/publisher_descriptor.rs:72-91 | uses the descriptor exactly when it is live and was not reported failed or a fetch was started or ended less than two seconds ago; refuses exactly an expired one in that cooldown; fetches exactly otherwise |
| LeaseCache.Descriptors.Finish | crates/cli/src/publisher_descriptor.rs:92-116 | accepts exactly a live, not older record of the same publisher with its own ticket, and gives each other one its own refusal; a cancelled fetch still counts for the cooldown |
| LeaseCache.Descriptors.Run | crates/cli/src/publisher_descriptor.rs:39-117 | over any sequence of calls the publisher never changes, revisions never decrease, everything handed out was live, and fetch starts are spaced |
| Broker.StepKeeps | crates/cli/src/client_broker.rs:88-210 | every locked section of every task keeps the ownership invariant |
| Broker.RunKeeps | crates/cli/src/client_broker.rs:256-308 | it holds in every interleaving |
| Broker.UsesOwn | crates/cli/src/client_broker.rs:191-204 | in every run: an Open or Inspect that gets as far as a connection works on exactly the lease and the connection its request named, and that connection was connected under that lease |
| Broker.FindIff | crates/cli/src/client_broker.rs:191-199 | its lookup succeeds exactly if the named connection is registered under the named lease at that moment |
| Broker.SucceedIff | crates/cli/src/client_broker.rs:200-204 | and it is answered exactly if that connection is open |
| Broker.PeerClosedServesNoMore | crates/cli/src/client_broker.rs:200-204 | a connection closed by its peer serves no request at any later time |
| Broker.CanServe | crates/cli/src/client_broker.rs:144-204 | a live lease with room can always connect, register, look up and stream, whatever else is going on |
| Broker.OneOwner | crates/cli/src/client_broker.rs:174-189 | every registered connection has exactly one owning task, in its own lease, and is registered in no other |
| Broker.Limits | crates/cli/src/client_broker.rs:117-124 | at most 32 leases and 128 connections per lease are ever registered |
| Broker.AdmittedIff | crates/cli/src/client_broker.rs:46-57 | requests naming a lease are admitted exactly while the command that took it is there |
| Broker.RefusedIff | crates/cli/src/client_broker.rs:117-175 | a lease is refused exactly at 32 registered ones, a connection exactly at 128 of its lease; a refused connection is closed |
| Broker.Isolated | crates/cli/src/client_broker.rs:139-189 | whatever other leases do, a lease's registration, connections and tasks stay as they are |
| Broker.NoLateTask | crates/cli/src/client_broker.rs:46-57 | a cancelled lease stays cancelled and no task joins it |
| Broker.RunWinds | crates/cli/src/client_broker.rs:139-189 | in every run after a cancellation the steps of the lease's own tasks and what they can still do add up to no more than what remained then |
| Broker.IdleIsCleared | crates/cli/src/client_broker.rs:187-189 | a lease whose tasks have nothing left to do is unregistered, with every connection closed and removed |
| Broker.LeaseEnds | crates/cli/src/client_broker.rs:139-189 | ending a lease clears it under every schedule: its tasks take at most as many steps as remained, and the lease is cleared once they have taken them or have nothing left to do |
| Broker.LeaseCanEnd | crates/cli/src/client_broker.rs:139-142 | from every reachable state the lease's own steps alone can clear it |
| BrokerStartup.StepKeeps | crates/cli/src/client_broker.rs:229-254 | every step of starters and brokers, crashes included, keeps locks and socket path consistent |
| BrokerStartup.RunKeeps | crates/cli/src/client_transport.rs:316-368 | so does every run |
| BrokerStartup.OneBroker | crates/cli/src/client_broker.rs:233-237 | at most one process holds the owner lock, from taking it until it lets go after draining |
| BrokerStartup.OneEndpoint | crates/cli/src/client_broker.rs:233-251 | so a broker that serves, or drains with its endpoint still open, is the only one, and no starter probes the lock meanwhile |
| BrokerStartup.ServingKeepsSocket | crates/cli/src/client_broker.rs:238-250 | no process unlinks the socket of a serving broker, and the path leads to it |
| BrokerStartup.AttachIff | crates/cli/src/client_transport.rs:316-322 | a starter can attach exactly while a broker serves, and then to that broker, the only owner |
| BrokerStartup.StopsClean | crates/cli/src/client_broker.rs:249-250 | a broker that stops by itself has removed its socket file when it gives up the owner lock |
| BrokerStartup.SpawnsOnce | crates/cli/src/client_transport.rs:343-366 | a starter starts at most one broker |
| BrokerStartup.CanServe | crates/cli/src/client_transport.rs:316-368 | while neither lock is held a new starter can bring up a broker and attach to it, whatever was left at the socket path |
| BrokerStartup.ListenSucceeds | crates/cli/src/client_broker.rs:239-244 | a broker that removed the old socket file always finds the path free |
| StoreTable.LessTransitive | crates/session-sync-worker/src/storage.rs:41-47 | the byte order of record ids is transitive |
| StoreTable.LessTotal | crates/session-sync-worker/src/storage.rs:41-47 | and total and irreflexive |
| StoreTable.LessIff | crates/session-sync-worker/src/storage.rs:41-47 | it is decided by the first differing byte |
| StoreTable.InsertedIs | crates/session-sync-worker/src/storage.rs:176-187 | an insert into the ordered table is an update of the map it stands for |
| StoreTable.BumpedIs | crates/session-sync-worker/src/storage.rs:188-198 | so is an update, which returns exactly the one new row |
| StoreTable.WhereIs | crates/session-sync-worker/src/storage.rs:147-155 | a lookup returns the map's entry or nothing |
| StoreTable.RevisionRoundTrip | crates/session-sync-worker/src/storage.rs:259-265 | a revision survives its decimal text |
| Store.WriteSucceeds | crates/session-sync-worker/src/storage.rs:175-207 | from a sound table no accepted write is aborted by the quota trigger or the checks, and it returns the revision the update function computed |
| Store.PutTallies | crates/session-sync-worker/src/model.rs:160-183 | the revision of every record is the number of puts that took effect |
| Store.PutIs | crates/session-sync-worker/src/model.rs:160-183 | a put is accepted exactly with version 1, at most 65,792 bytes of ciphertext and a revision below the largest or, for a new id, room among 128; it then stores the next revision with the envelope's own nonce and ciphertext, and answers with it; each refusal has its own error |
| Store.LatestPut | crates/session-sync-worker/src/model.rs:160-183 | over any requests a record holds exactly the nonce and the ciphertext of its latest put that took effect |
| Store.NoPut | crates/session-sync-worker/src/model.rs:160-183 | and is unchanged if no put of it took effect |
| Store.IndexIs | crates/session-sync-protocol/src/api.rs:282-303 | the rows of a sound table always form a valid index of exactly its records |
| Store.Database.Initialize | crates/session-sync-worker/src/storage.rs:64-98 | the first account that is written stays, under every failure |
| Store.Database.LoadRecord | crates/session-sync-worker/src/storage.rs:143-156 | a stored row always parses back to the record it stands for |
| Store.Database.Decide | crates/session-sync-worker/src/storage.rs:163-171 | the checks before a write are those of the plain map, and the count never exceeds the quota |
| Store.Database.Conclude | crates/session-sync-worker/src/storage.rs:202-208 | an effective write is answered with its outcome; the revision mismatch never fires |
| Store.Database.PutRecord | crates/session-sync-worker/src/storage.rs:158-209 | an accepted put stores the next revision with the envelope's own nonce and ciphertext and answers with it; a refused one changes nothing and gets its own error; under every failure the records, the answer, the successes and the lost answers are the specified ones; Unavailable only without an account or on a failing call |
| Store.Database.LoadIndex | crates/session-sync-worker/src/storage.rs:115-141 | the index lists exactly the map's keys, strictly ascending, with their revisions |
| Store.Database.ServeOne | crates/session-sync-worker/src/storage.rs:64-209 | one request does to the store what it does to the plain map, and is tallied as answered or lost exactly as specified |
| Store.Database.Run | crates/session-sync-worker/src/storage.rs:158-209 | over any requests and failures the records are the plain map to which every put that took effect was applied, and the tallies of answered and lost puts are those of the requests; at most 128 records, never fewer than before |
| Store.RevisionCounts | crates/session-sync-worker/src/model.rs:160-183 | over any requests a record's revision grows by its answered and its lost puts |
| Store.RevisionIff | crates/session-sync-worker/src/storage.rs:202-207 | from an empty database a record's revision is its number of successful puts if and only if none of its accepted puts failed to be read back |
| Store.LoseAnswer | crates/session-sync-worker/src/storage.rs:202-207 | a concrete run: one answer that cannot be read back leaves revision 1 and no success |
| Store.Serve | crates/session-sync-worker/src/storage.rs:158-209 | the store itself, run on any requests from empty: its answered puts are the specified ones, and a revision counts them exactly under that condition, in particular without read-back failures |
| Clipboard.StepKeeps | crates/cli/src/account_clipboard.rs:181-272 | every step of any number of helpers and of the user keeps lock, file and ownership consistent |
| Clipboard.RunKeeps | crates/cli/src/account_clipboard.rs:124-145 | so does every run |
| Clipboard.ClaimedPlacedIt | crates/cli/src/account_clipboard.rs:181-197 | only a helper that placed its bundle and recorded its generation has claimed the clipboard |
| Clipboard.LastWriterIs | crates/cli/src/account_clipboard.rs:199-216 | the generation file names the helper that last wrote it, whether its write was reported as failed or not |
| Clipboard.ClearsNoOther | crates/cli/src/account_clipboard.rs:218-239 | a helper never clears a bundle that another helper has claimed the clipboard for |
| Clipboard.NothingRemains | crates/cli/src/account_clipboard.rs:254-272 | once all helpers finished and nothing went wrong no helper's bundle is left |
| Clipboard.LeavesBundleIff | crates/cli/src/account_clipboard.rs:224-271 | a helper finishing with its bundle on the clipboard leaves it there exactly when its last step was a fault |
| Clipboard.BundleRemainsIff | crates/cli/src/account_clipboard.rs:124-272 | once all helpers have finished, a helper's bundle is on the clipboard if and only if that helper went by a fault while it was there and nothing has replaced it since |
| Clipboard.UnreadableLeavesBundle | crates/cli/src/account_clipboard.rs:265-272 | a concrete run without clear errors that leaves the bundle |
| Clipboard.UserCopyLost | crates/cli/src/account_clipboard.rs:265-272 | a concrete run in which a user's copy is cleared |
| Clipboard.CopyClearedIff | crates/cli/src/account_clipboard.rs:218-272 | a user's copy can be cleared by helpers alone if and only if a helper is between comparison and clear, or one that may still compare holds the same text |

## Left out

- Handoff: a pipe message is delivered whole or not at all, killing and reaping a child works, restoring a file
  works, and a preparation that starts finishes inside its deadline (an abandoned preparation may restore the old
  binary later); nobody else replaces the installed binary. `Installation` models failing restores by themselves.
- Handoff: `active_operation` and the Waiting, Busy and Failed replies derived from it are not modelled;
  operation identifiers are taken to be distinct; an error while listening for an interrupt is a `Die` step.
- HandoffRuns.OneBound: false of runs with the harmful Start described under Findings; `HandoffBreach` has the exact
  condition. `HandoffRuns.InstalledVersion` likewise, with `HandoffRuns.StartSafeIff`.
- HandoffRuns.StartSafeIff: a candidate may lose its parent's pipe by a read error while the parent lives (the step
  `LoseParent`), so the runs whose existence this and `HandoffBreach.StartDoublesIff` state range over such states too.
- UpdateClient.ConfirmCandidate: an attempt's timer fires on time, so an attempt ends by its limit; a pause may
  take longer.
- Discovery.World.Add: an add counts as successful when its call returned; what a registry did in a call that
  failed or never returned is not recorded.
- DiscoveryReconciler.Reconciler.PruneOne: owned and pending entries are visited in any order, not in key order.
- DiscoveryReport.ValidateHosts: the accepted hosts come in any order, not in that of their identities; the version,
  generation and age of a report are not checked.
- Canonical.Validate: ticket parsing is an arbitrary predicate; the last representable second is a constant.
- Envelope.OpenIff: the authenticated cipher is any pair of functions that invert each other exactly, and key
  derivation any function.
- LeaseCache.Descriptors.Get: a caller that waits for the lock is a call made after the fetch; ticket parsing is
  an arbitrary function.
- Broker.StepKeeps: tokens are distinct; the shutdown of the whole broker, which aborts all tasks, is not a step.
- BrokerStartup.OneBroker: lock files keep their inode, and an endpoint is closed once draining is over.
- Store.Database.PutRecord: the read, the checks and the write are one transaction, as the platform promises.
- Clipboard.StepKeeps: generations are distinct, and a failed placement leaves the clipboard as it was.
- Iroh, QUIC, SSH and forwarding streams, sockets and scheduling beyond the steps above.
- JSON, base64, URL, UUID and ticket formats, the update and forwarding wire frames: fixed formats without state.
- Permission, ownership and symbolic-link checks of state directories; installer and uninstaller.
- Token authentication and account encoding in the worker, its routing and its rate limits: short pure checks.
- Command line, configuration, diagnostics, host picker, password prompts and 1Password calls.
