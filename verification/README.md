# Knobs: a verified model of live configuration delivery

Knobs stores versioned configuration values and targeting rules per environment, and delivers
every change to long-lived clients. This project models that path end to end and proves what it
guarantees:

- **the store**: put-values, put-schema and rollback as transactions under READ COMMITTED with row
  locks; version numbers, pinned schemas, change-safety; the last-owner guard of organizations;
- **delivery**: the delivery revision, NOTIFY, the Listener and its loader, the Hub's drop-oldest
  buffers, the stream handler with its `since` gate and its per-connection baseline, the wire, and
  the client with its revision gate, delta chaining, resync, polling and reconnects, all as one
  machine of small interleaved steps;
- **the two composed**: what a consumer holds, in terms of the rows the transactions wrote;
- **deltas**: computing them, and three appliers;
- **evaluation**: targeting rules and percentage rollouts in Go and in TypeScript, and what
  validation at save time promises about evaluation at read time;
- **two event-stream parsers** (the format subset is that of the WHATWG HTML Standard, sections
  9.2.5 and 9.2.6), **reconnect backoff and lifecycle**, and **the login limiter**.

Code that changes state step by step is modelled by classes and loops, each proved against a
specification function; protocols are step machines whose theorems hold for every run. A module
whose name ends in `Proof`, `Cover` or `Runs` holds an inductive invariant; the theorems a reader
wants are in `EndToEnd`, `DeliveryTheorems`, `DeliveryRecovery`, `StoreTheorems`, `StoreHarmless`,
`StoredVersions`, `OwnerRuns` and `OwnerPromotions`, and at the end of each of the other modules. A
lemma whose name ends in `Exactly` says in full, without the functions the programs are proved
against, what an operation does and when.

| file | about |
|---|---|
| `EndToEnd`, `StoreFeedsDelivery` | the write paths and delivery, composed |
| `Delivery`, `DeliveryProof`, `DeliveryCover`, `DeliveryTheorems` | the delivery machine |
| `DeliveryTorn`, `DeliveryLies` | delivery with torn loads: what goes wrong, and exactly when |
| `DeliveryRecovery` | what each failure can lose, and how polls and reconnects make up for it |
| `Stream`, `Client`, `Hub` | the programs the delivery machine's actors run |
| `Delta`, `Ordering`, `Targeting` | snapshots, deltas, sorted keys, rules |
| `Store`, `StoreRuns`, `StoreAlone`, `StoreTheorems`, `StoreRollback` | the write paths, alone and interleaved; what rollbacks do to change-safety |
| `Owners` | the last-owner guard, alone and interleaved |
| `Evaluator`, `Rollouts`, `Schema` | evaluation, bucketing, validation and soundness |
| `Sse`, `Reconnect`, `Limiter` | parsers, backoff and lifecycle, rate limiting |

## What is false of the code

Six guarantees that comments in the code state or suggest do not hold as they stand. Each has a
concrete run or input, and the exact condition or the hypothesis under which the guarantee holds.

- **Delta mode with non-atomic loads.** The loader reads the revision and the row in two statements
  (`internal/app/app.go:146-161`). If a commit falls between them, a delta is later computed against
  a baseline whose values the client never had, and a quiet client keeps wrong values at the head
  revision (`DeliveryTorn.TornDeltaSticks`); or it is computed from a true baseline to a snapshot
  with the row of a later revision (`DeliveryTorn.TornSuccessorMisleads`). With atomically loaded
  snapshots every client agrees with the store (`DeliveryTheorems.Agreement`); with deltas off, no
  client has values older than its revision (`DeliveryTheorems.FullFramesAreNeverStale`). A delta
  that chains is harmless, whatever it was computed from and to, if and only if it names the version
  of its revision, has what it mentions from that version, and leaves out only what the client has
  right (`DeliveryTorn.HarmlessDeltas`). And a torn load is harmless in every continuation with
  atomic loads if and only if what it loaded can no longer reach the client in a way that matters
  (`DeliveryTornLoads.HarmlessTornLoads`, `DeliveryTornLoads.FirstTornLoad`): where the client is
  past its revision already, or will be before the next frame; or at it, if the load is a fetch's, if
  deltas are off, or if the row has the content of the revision's own.
- **Change-safety with rollbacks.** `handleRollback` neither validates its target nor takes the
  schema lock (`internal/api/versions_handlers.go:70-94`), so it can put back values the current
  schema refuses (`StoreRollback.RollbackBreaksChangeSafety`), and even a target that fits at the
  moment of the rollback is not enough (`StoreRollback.RaceBreaksChangeSafety`). A rollback is
  harmless - live values stay valid however the run goes on, as long as later rollbacks fit - if and
  only if its target fits the committed schema and that of each put-schema which has passed its
  environment and can still commit (`StoreHarmless.HarmlessRollbacks`).
- **The last-owner guard with promotions.** A member's role is read before anything is locked
  (`internal/api/org_handlers.go:291`), so a demotion that saw a non-owner skips the guard although
  the member has been promoted since (`OwnerRace.GuardMissesAPromotion`). A promotion is harmless -
  an owner remains however the run goes on, as long as no other promotion races - if and only if no
  demotion of that member has skipped the guard (`OwnerPromotions.HarmlessPromotions`).
- **"Mirrors byte-for-byte".** The TypeScript evaluator (`sdk/typescript/src/eval.ts:8`) throws on a
  field named like a member of `Object.prototype` and on a condition whose value list is `null`,
  where the Go evaluator answers (`TsEvaluator.ConstructorFieldThrows`). The inputs on which the two
  agree are exactly those of `TsEvaluator.EvaluatorsAgree` and `TsEvaluator.AllKeysAgree`.
- **A valid result for every context.** A key with rules, none of which match, and no base value
  evaluates to null, which its field may not accept (`Soundness.UnmatchedRuleGivesNull`). The
  evaluated configuration is valid exactly when `Soundness.EvaluationIsSound` says.
- **No callback after cancel.** The inner loop of the TypeScript stream does not look at `cancelled`
  (`sdk/typescript/src/stream.ts:18-19` and `74-78`), so a listener that closes the client on one
  frame is called for the next one of the same chunk (`Reconnect.ClosingCallbackIsNotTheLast`), and
  a client closed while a read is on its way is still handed the snapshot that read brings
  (`Reconnect.ClosedWhileReading`). A callback comes too late if and only if, before any exception,
  its payload is in a chunk that arrives on an already cancelled stream, or follows in its chunk a
  payload during which the client was closed (`Reconnect.LateExactly`). No error is reported after a
  cancel (`Reconnect.TsClient.ExactlyOne`).

Three smaller notes. The 409 "version conflict" answer (`internal/api/values_handlers.go:134-142`) is
never given: the schema lock already orders the writers (`StoreTheorems.NumberIsNeverTaken`). The two
event-stream parsers part on carriage returns, which the server never sends, and on nothing else
within the line cap (`Sse.CarriageReturnsDiffer`, `Sse.ParsersAgree`). And what the SDKs then make of
the same payloads differs, because TypeScript takes any JSON value and Go only what its structs hold
(`Sse.NotAlwaysAPrefix`, `Sse.PrefixExactly`, `Sse.SameExactly`).

## Model

| member | source | states |
|---|---|---|
| `EndToEnd.ServedAsCommitted` | internal/api/stream_handler.go:87-193 | In every interleaving of write transactions and delivery, with atomic loads, a consumer at revision r holds the stored version that the environment's r-th committed save or rollback made current |
| `EndToEnd.QuietConsumerHoldsLiveVersion` | internal/store/versions.go:106-122 | Once nothing is in flight, the consumer holds the version current_version_id points at, at the environment's delivery_revision |
| `EndToEnd.ServedEvaluates` | internal/targeting/validate.go:12-33 | Whatever a consumer holds past revision 0, in any interleaving of writes and delivery with atomic loads or with deltas off, its values and rules fit a definition the store has carried, and evaluating them for any caller gives every required field, no unknown one, and a result that fits too unless rules without a match leave a null their field does not take |
| `EndToEnd.NothingIsRefused` | internal/api/values_handlers.go:111-120 | Delivery never stands in the way of a write: exactly the write steps the store allows are possible in the composed system |
| `EndToEnd.RunIsDelivered` | internal/api/values_handlers.go:102-120 | Every composed run, seen from delivery, is a run of the delivery machine, so its theorems apply to it |
| `EndToEnd.ActKeepsInStep` | internal/store/versions.go:113-122 | Commits, other write statements and delivery steps all keep the store's rows and the delivery history in step |
| `EndToEnd.CommitShows` | internal/store/versions.go:113-122 | After each commit the environment's live version is the one its newest revision made current |
| `StoreFeedsDelivery.CommitsAreSavesAndRollbacks` | internal/api/versions_handlers.go:70-94 | Each committed transaction is, seen from one environment, one save, one rollback or nothing |
| `StoreFeedsDelivery.HeadIsRevision` | internal/store/versions.go:106-122 | The row's delivery_revision counts the environment's committed moves, so it is the newest index of its history |
| `StoreFeedsDelivery.HistoryIsStable` | internal/store/versions.go:67-70 | Later commits never change what earlier revisions made current |
| `DeliveryTheorems.Agreement` | sdk/go/knobs.go:287-335 | With atomic loads, in every reachable state the consumer's version, values and targeting are exactly what the store made current at the consumer's revision, including when a poll lands between the From check and the apply |
| `DeliveryTheorems.FullFramesAreNeverStale` | internal/app/app.go:144-163 | With deltas off and reads torn in two statements, the consumer's values are those of its revision or of a later one |
| `DeliveryTheorems.NoLostUpdate` | internal/api/stream_handler.go:87-94 | With nothing in flight and nothing failed since the connection subscribed, the consumer's revision is the environment's delivery_revision |
| `DeliveryTheorems.QuietConsumerIsCurrent` | internal/api/stream_handler.go:160-193 | Such a consumer holds exactly the current configuration, with atomic loads or with deltas off |
| `DeliveryTheorems.RevisionNeverGoesBack` | sdk/go/knobs.go:276-305 | After Ready, no run of steps lowers the consumer's revision |
| `DeliveryTheorems.RevisionCountsCommits` | internal/store/versions.go:106-122 | The revision rises by one per committed save or rollback and by nothing else, what a revision made current never changes, and it always is a saved version |
| `DeliveryTheorems.InternalStepIsCloser` | internal/delivery/listener.go:108-125 | Every step the system takes by itself leaves strictly less work to do |
| `DeliveryTheorems.QuietOrInternalStep` | internal/api/stream_handler.go:202-228 | As long as anything is in flight, some actor can move: in the code as it is, and under the atomic-loads hypothesis in every state without a load that hypothesis excludes, one whose revision a commit has overtaken |
| `DeliveryTheorems.LeftAloneItArrives` | internal/api/stream_handler.go:87-228 | Left alone, each configuration of the system comes to rest within a bound computed from its state, and at rest the consumer has reached the delivery revision and, with atomic loads or with deltas off, holds exactly the current configuration |
| `DeliveryRecovery.PollCatchesUp` | sdk/go/knobs.go:231-252 | Whatever was lost before, connected or not, one tick of the slow poll carried through brings a running consumer to the delivery revision, and, with atomic loads or with deltas off, to exactly the current configuration |
| `DeliveryRecovery.ReconnectCatchesUp` | sdk/go/knobs.go:191-229 | Whatever was lost on a connection, its end is followed by steps the system takes by itself to a quiet state with the consumer at the delivery revision |
| `DeliveryRecovery.ComesToRest` | internal/api/stream_handler.go:87-228 | From every state that failures and interleavings can lead to, the system's own steps lead to one with nothing in flight |
| `DeliveryRecovery.ReconnectSendsWhatIsNew` | internal/api/stream_handler.go:160-193 | A consumer at the delivery revision that reconnects is sent no initial snapshot, any other exactly one full frame with the current configuration |
| `DeliveryRecovery.ReadyCatchesUp` | sdk/go/knobs.go:149-166 | A first fetch that failed and is tried again leaves the consumer running at the delivery revision |
| `DeliveryLosses.NotificationLost` | internal/delivery/listener.go:108-125 | A run from the empty store: a notification is dropped, and nothing in flight will bring its revision |
| `DeliveryLosses.LoadFailed` | internal/app/app.go:146-155 | The same when the loader's read fails |
| `DeliveryLosses.InitialLoadFailed` | internal/api/stream_handler.go:160-193 | The same when a snapshot is published before the handler subscribes and the handler's own read fails |
| `DeliveryLosses.ResyncFailed` | sdk/go/knobs.go:320-335 | The same when the refetch that an unchained delta asks for fails |
| `DeliveryTorn.TornDeltaSticks` | internal/app/app.go:146-161 | A run with deltas and one torn load after which the consumer rests at the head revision with the values of the revision before |
| `DeliveryTorn.TornSuccessorMisleads` | internal/app/app.go:146-161 | A run in which the delta starts from just what the consumer holds, but leads to a snapshot of revision 2 with the row of revision 3, after which the consumer disagrees with what revision 2 made current |
| `DeliveryTorn.HarmlessDeltas` | sdk/go/knobs.go:320-335 | Whatever baseline and successor the server really diffed, torn or not, a delta that chains leaves the consumer in agreement with the store if and only if it names the version of its revision, every key it mentions gets that version's entry, and every key it does not mention the consumer had right already |
| `DeliveryTorn.HarmlessBaselines` | sdk/go/knobs.go:320-335 | For a successor that is the revision's own row: if and only if everything the delta does not mention was right already |
| `DeliveryTornLoads.HarmlessTornLoads` | internal/app/app.go:144-163 | After a torn load, every continuation with atomic loads keeps the consumer in agreement with the store, if and only if the consumer is at or past the load's revision (a fetch), is past it from the next frame on or at it with deltas off or a row of the same content (the Listener, the initial frame); after a torn first load, never |
| `DeliveryTornLoads.FirstTornLoad` | internal/app/app.go:144-163 | The same for the first torn load of any run from the empty store |
| `DeliveryTornLoads.EmptyDeltaMisleads` | internal/api/stream_handler.go:125-158 | With a torn snapshot as baseline and the consumer at its revision, a later save of that snapshot's content goes out as a delta that says nothing, and the consumer takes its old values for the new ones |
| `DeliveryLies.StepContains` | sdk/go/knobs.go:287-335 | As long as the one false snapshot can only reach consumers it cannot harm, every step of every actor keeps everything else true and the consumer out of its reach |
| `DeliveryProof.StepKeepsSane` | internal/delivery/listener.go:108-125 | Every step of every actor keeps each snapshot, frame and load in flight faithful to the history, and publishing in revision order |
| `DeliveryProof.PublishKeepsSane` | internal/delivery/hub.go:88-111 | Dropping the oldest and appending keeps a subscriber's buffer ordered and faithful |
| `DeliveryProof.ReceiveKeepsSane` | sdk/go/knobs.go:320-335 | A frame, full or delta, chaining or not, leaves the consumer faithful to the history |
| `DeliveryProof.ApplyStaysFit` | sdk/go/delta.go:51-81 | A delta between two faithful snapshots, applied to a faithful one at its From revision, gives a faithful one |
| `DeliveryProof.InitRowKeepsSane` | internal/api/stream_handler.go:170-193 | The since-gated initial frame is faithful and does not disturb what is queued |
| `DeliveryCover.StepKeepsCovered` | internal/api/stream_handler.go:87-94 | On a healthy subscribed connection something in flight, or the consumer itself, always carries the head revision |
| `DeliveryCover.PublishKeepsCovered` | internal/delivery/hub.go:88-111 | Drop-oldest never drops the last thing that carries the head revision |
| `DeliveryCover.ReceiveKeepsCovered` | sdk/go/knobs.go:320-335 | A delta that does not chain starts a resync that will carry at least its revision |
| `Client.Client.StartBackground` | sdk/go/knobs.go:173-185 | The stream and poll goroutines are launched at most once in the client's life, and not after Close |
| `Client.Client.Ready` | sdk/go/knobs.go:149-166 | A failed first fetch leaves the client as it was; otherwise it holds the fetched or the empty snapshot, and its background work has been launched exactly once unless it was closed first |
| `Client.Client.ApplySnapshot` | sdk/go/knobs.go:287-305 | Exactly a strictly newer revision is swapped in, and listeners are called exactly then, with its values |
| `Client.Client.ApplyDeltaFrame` | sdk/go/knobs.go:320-335 | Whatever snapshots arrive between the From check and the apply, the outcome is that of the gate over all of them and then the folded or refetched one, and listeners hear of exactly the snapshots swapped in, in order |
| `Client.Client.Close` | sdk/go/knobs.go:432-442 | Close ends the background work and is idempotent |
| `Client.GateKeepsNewest` | sdk/go/knobs.go:276-305 | Over any arrivals the client ends at the newest revision seen, never below where it was, holding one of the arrivals or what it had |
| `StreamHandler.StreamConn.WriteFrame` | internal/api/stream_handler.go:125-158 | The wire always is what the sequence of sent snapshots prescribes, with the baseline at the last of them |
| `StreamHandler.StreamConn.Serve` | internal/api/stream_handler.go:160-228 | A connection sends the initial snapshot exactly when its revision passes since, then every delivery in order until disconnection, and heartbeats add nothing |
| `StreamHandler.FoldFollows` | internal/api/stream_handler.go:125-158 | For any snapshots, gaps, repeats and older revisions included, folding the written frames chains and yields the last snapshot sent, and the first frame is a full one |
| `StreamHandler.FoldFollowsFrom` | internal/api/stream_handler.go:125-158 | The same from any baseline a consumer already follows |
| `StreamHandler.DeltasGoForward` | internal/api/stream_handler.go:140-145 | A frame is a delta exactly when it goes to a newer revision than the one sent before, and then it names both |
| `Hub.Hub.Subscribe` | internal/delivery/hub.go:48-82 | A new subscription gets an id never in use, an empty open channel, and disturbs no other |
| `Hub.Hub.Cancel` | internal/delivery/hub.go:61-80 | Cancel removes and closes exactly its own channel, once |
| `Hub.Hub.Publish` | internal/delivery/hub.go:88-111 | Every subscriber of the environment gets the snapshot, the oldest making room in a full buffer; no other buffer changes, and no closed channel is sent on |
| `Hub.Chan.Offer` | internal/delivery/hub.go:92-109 | Send, else drop the oldest and send again, always queues the snapshot within the bound |
| `HubRace.QueueIsNewestSuffix` | internal/delivery/hub.go:88-111 | Racing with a receiver, the queue always is the newest suffix of at most 4 publications, receptions are in publish order without repeats, the newest publication is queued or received, and the last default is never taken |
| `HubRace.KeepsTheLastFour` | internal/delivery/hub.go:15-28 | A subscriber that takes nothing is left with the last four publications, or with all there were |
| `HubRace.PublishComesThrough` | internal/delivery/hub.go:88-111 | The three selects, uninterrupted, publish the snapshot and do to the channel what the bounded append does |
| `HubRace.ReceiverCatchesUp` | internal/delivery/hub.go:88-111 | A receiver that keeps taking gets everything queued, in publish order, up to the newest |
| `HubRace.SmallStepsArePublishes` | internal/delivery/hub.go:92-109 | Whatever a receiver does between the three selects, the whole amounts to one drop-oldest publication |
| `Delta.Compute` | internal/delivery/delta.go:47-98 | Whatever order the maps iterate in, the delta is the same function of the two snapshots |
| `Delta.ChangedEntries` | internal/delivery/delta.go:62-72 | Set holds exactly the keys that are new or differ, with their new values |
| `Delta.RemovedKeys` | internal/delivery/delta.go:73-78 | Remove lists exactly the keys that are gone, in strictly increasing order |
| `Delta.DiffIsExact` | internal/delivery/delta.go:62-98 | A delta mentions a key exactly when the two snapshots differ on it, and never both sets and removes it |
| `Delta.DiffIsLeast` | internal/delivery/delta.go:62-98 | No delta that reaches the same result says less |
| `Delta.ApplyInvertsCompute` | internal/delivery/delta.go:108-121 | Applying the computed delta to the old snapshot gives the new one, empty and absent targeting identified |
| `Delta.PatchDiffGives` | internal/delivery/delta.go:123-135 | For any four maps: a diff of two of them, applied to the third, gives the fourth exactly when the third agrees with the fourth on every unchanged key and the new one does on every changed key |
| `Delta.PatchDiffExactly` | internal/delivery/delta.go:123-135 | A diff applied to some third map reaches the new one exactly when that map already agrees with it on every unchanged key |
| `Delta.DeltaOntoAnother` | sdk/go/delta.go:51-81 | The same for snapshots: exactly which clients at the From revision a delta brings to the new snapshot |
| `Delta.ApplyDelta` | internal/delivery/delta.go:108-155 | The server's applier refuses a delta from another revision and leaves the base untouched, and otherwise patches both sides, an empty targeting becoming nil |
| `Delta.ApplyDeltaInSdk` | sdk/go/delta.go:51-81 | The Go SDK's copy, overwrite and delete loops patch both sides |
| `Delta.ApplyDeltaInTs` | sdk/typescript/src/delta.ts:22-40 | The TypeScript spreads and deletes patch both sides, every absent part meaning no change |
| `Delta.AppliersAgree` | sdk/typescript/src/delta.ts:9-40 | On a delta that chains, the three appliers give snapshots no reader can tell apart |
| `Store.Repo.GetOrInitSchema` | internal/store/schema.go:26-34 | A missing schema row appears with the empty definition at version 1, an existing one is kept |
| `Store.Repo.NextVersionNumber` | internal/store/versions.go:58-65 | One above the highest number the environment has, 1 when it has none |
| `Store.Repo.InsertVersion` | internal/store/versions.go:70-104 | A number in use is refused and nothing changes; otherwise exactly that row is added |
| `Store.Repo.SetCurrentVersion` | internal/store/versions.go:113-122 | Pointer and revision move together, by one, and no other environment changes |
| `Store.Repo.CurrentVersion` | internal/store/versions.go:31-53 | The row the environment points at, or none |
| `Store.Repo.HandlePutValues` | internal/api/values_handlers.go:69-122 | The statements of put-values amount to its specification: all of a new pinned, numbered, current version, or a refusal and no change at all |
| `Store.Repo.HandlePutSchema` | internal/api/schema_handlers.go:67-115 | The statements of put-schema amount to its specification: refused without a trace when some environment's live values break, else the next schema version |
| `Store.Repo.HandleRollback` | internal/api/versions_handlers.go:70-94 | The statements of rollback amount to its specification: an unknown version is refused, a known one becomes current under a new revision |
| `Store.Repo.FirstBroken` | internal/api/schema_handlers.go:83-103 | The change-safety loop finds a broken environment exactly when there is one |
| `Store.PutExactly` | internal/api/values_handlers.go:84-110 | Put-values succeeds exactly when the environment exists and both values and targeting pass the current definition, answers not-found or unprocessable otherwise, and stores what was posted, pinned to the current schema version, under a number above all others, makes it current under the next revision and changes nothing else |
| `Store.SchemaExactly` | internal/api/schema_handlers.go:56-115 | Put-schema refuses exactly a definition with an unnamed, repeated, untyped, empty-enum, empty-range or uncompilable field as unprocessable, and exactly one that some live values break as a conflict; otherwise it appends it to the definitions and changes nothing else |
| `Store.RollbackExactly` | internal/api/versions_handlers.go:70-94 | A rollback asks for an existing row and nothing more, moves the pointer to it and the revision by one, and changes nothing else |
| `Store.CreateExactly` | internal/api/environments_handlers.go:45-60 | A new environment has no version and revision 0, and one that exists already is a conflict |
| `Store.NumbersAreDense` | internal/store/versions.go:58-65 | Where every row has a predecessor, an environment's numbers are exactly 1 to its highest |
| `Store.PutKeeps` | internal/api/values_handlers.go:84-110 | A save keeps numbering, pinning, pointers and change-safety |
| `Store.SchemaKeepsChangeSafe` | internal/api/schema_handlers.go:80-107 | A stored schema is one that every environment's live values satisfy |
| `Store.RollbackKeepsRows` | internal/api/versions_handlers.go:70-94 | A rollback writes no row and points only at an existing one |
| `Store.RollbackKeepsChangeSafe` | internal/api/versions_handlers.go:70-94 | A rollback keeps change-safety if and only if its target's values satisfy the current schema |
| `StoreRuns.CommitIsAlone` | internal/store/schema.go:70-102 | Under READ COMMITTED with these row locks, a committing transaction has the full effect it would have had run alone on the rows committed at that moment, if and only if it is no put-schema, or no environment's live values at that moment break its definition, which only a racing rollback can bring about; in particular always where rollbacks fit |
| `StoreAlone.AloneIsARun` | internal/api/values_handlers.go:69-122 | And conversely, from rest, whatever a write path does when run alone some run of its statements does |
| `StoreRuns.StepKeeps` | internal/api/values_handlers.go:69-122 | Every statement, commit and abort of every transaction keeps the invariant of rows, locks and what each transaction has read |
| `StoreRuns.CommitKeepsOthers` | internal/store/schema.go:76-83 | What another transaction has read under its locks stays true across any commit |
| `StoreTheorems.AlwaysChangeSafe` | internal/api/schema_handlers.go:68-115 | Over every interleaving in which committed rollbacks fit, each environment's live values validate against the current schema in every committed state |
| `StoreTheorems.ChangeSafeWithoutRollbacks` | internal/api/values_handlers.go:70-100 | In particular over every interleaving of put-values, put-schema and new environments |
| `StoreHarmless.HarmlessRollbacks` | internal/api/versions_handlers.go:70-94 | After a rollback's commit every continuation whose rollbacks fit stays change-safe, if and only if the target's values satisfy the committed schema and that of each put-schema which has passed the environment and can still commit |
| `StoreHarmless.CanGetUnsafe` | internal/api/schema_handlers.go:80-107 | From any state in which a put-schema that can still commit has passed an environment whose live values it refuses, some run whose rollbacks all fit ends unsafe |
| `StoreHarmless.StepKeepsHolding` | internal/api/schema_handlers.go:68-115 | Every statement and commit keeps: safe now, and each put-schema under way has passed only environments that fit, or can never commit |
| `StoreRollback.RollbackBreaksChangeSafety` | internal/api/versions_handlers.go:70-94 | A run from the empty store with a tightened schema and then a rollback that leaves live values the schema refuses |
| `StoreRollback.BeforeIsReached` | internal/api/values_handlers.go:69-122 | The rows both counterexamples start from are reached from the empty store by ordinary requests |
| `StoreRollback.RaceBreaksChangeSafety` | internal/api/schema_handlers.go:80-107 | A run from the empty store in which a rollback's target fits when it commits, and a put-schema that had passed the environment then breaks it |
| `StoreTheorems.VersionHistory` | internal/store/versions.go:58-122 | Over all runs an environment's numbers are exactly 1..n and every row's values and targeting both pass the definition that carried its pinned schema_version |
| `StoredVersions.EveryDefinitionIsStorable` | internal/schema/schema.go:38-60 | Over all runs every schema version has distinct field names and well-formed fields |
| `StoredVersions.EveryVersionEvaluates` | internal/targeting/validate.go:12-33 | Over all runs every stored version fits, field by field and rule by rule, the definition it is pinned to, and evaluates well against it for every caller |
| `StoreTheorems.HistoryIsPermanent` | internal/store/versions.go:67-70 | Over all runs rows are never changed or deleted, and schema versions only accumulate |
| `StoreTheorems.RevisionsInCommitOrder` | internal/store/versions.go:106-122 | The k-th commit that moves an environment carries revision k, and the row's revision counts them |
| `StoreTheorems.NumberIsNeverTaken` | internal/api/values_handlers.go:134-142 | The number a save is about to insert is never in use, committed or uncommitted, so the unique-violation answer cannot occur |
| `StoreTheorems.NoDeadlock` | internal/store/schema.go:70-102 | While any transaction is under way, some transaction can take its next statement, commit, or is refused for its own data |
| `Owners.GuardIsExact` | internal/api/org_handlers.go:290-312 | Alone, the guard refuses exactly the changes that would leave no owner |
| `Owners.Organization.CountOwnersForUpdate` | internal/store/organizations.go:222-240 | The counting loop counts the owner rows |
| `Owners.Organization.Handle` | internal/api/org_handlers.go:344-365 | Strangers and the last owner, and no one else, are refused and nothing changes; otherwise a removed member is gone, one whose role is set has it, and no one else is touched |
| `Owners.HandledExactly` | internal/api/org_handlers.go:344-365 | The same of the specification the handlers are proved against |
| `OwnerRuns.CommitChanges` | internal/store/organizations.go:110-139 | Whatever it raced, a commit adds the member, sets the role or deletes the row it is about, finding it absent or present as it must, and touches no one else |
| `OwnersAlone.AloneExactly` | internal/api/org_handlers.go:290-312 | In statements, a change alone gets through to its full effect if the handler does not refuse it, and if it does no number of attempts changes the members |
| `OwnerRuns.AlwaysAnOwner` | internal/api/org_handlers.go:290-312 | Over every interleaving in which promotions do not race a demotion that skipped the guard, an owner remains in every committed state |
| `OwnerRuns.AlwaysAnOwnerWithoutPromotions` | internal/store/organizations.go:213-240 | In particular for any number of concurrent demotions and removals, with row locks and re-evaluation after waiting |
| `OwnerPromotions.HarmlessPromotions` | internal/api/org_handlers.go:290-312 | After a promotion's commit an owner remains in every continuation without further racing promotions, if and only if no demotion of that member has skipped the guard |
| `OwnerPromotions.RacingPromotionCanLoseAll` | internal/api/org_handlers.go:290-312 | When one has, some continuation without any promotion ends with no owner: the others step down, each past the guard, and the demotion lands |
| `OwnerRuns.CommitKeepsOthers` | internal/store/organizations.go:213-221 | What the guard of another transaction has counted and locked stays true across any commit |
| `OwnerRace.GuardMissesAPromotion` | internal/api/org_handlers.go:290-312 | A run with a promotion that ends with no owner at all |
| `Evaluator.FirstMatchDecides` | internal/targeting/eval.go:14-25 | The first rule that matches decides, and the base value stands exactly when none does |
| `Evaluator.GetForExactly` | sdk/go/eval.go:282-292 | A lookup in full: unknown without value and rules; else the first rule all of whose conditions hold decides, by its rollout or its value; else the stored value, or nil |
| `Evaluator.EvaluateAllIsGetFor` | sdk/go/eval.go:294-304 | Evaluating everything has an entry for each key with a value or a rule list, and it is what the lookup answers |
| `Evaluator.PresentAttribute` | internal/targeting/eval.go:94-154 | For an attribute the caller has, each operator in plain terms: membership, equality with the first value, a split of the string around it, and the four numeric comparisons |
| `Evaluator.AbsentAttribute` | internal/targeting/eval.go:94-101 | A caller without the attribute meets not-in and nothing else |
| `Evaluator.BucketByHash` | internal/targeting/eval.go:56-80 | The variant is the one in whose interval the hash of `salt:key:targetingKey` lies, the key standing in for an empty salt |
| `Evaluator.BucketWithoutHash` | internal/targeting/eval.go:48-54 | Without a targeting key it is the first variant, and without variants nil |
| `Evaluator.ResolveLoop` | sdk/go/eval.go:77-87 | The loop of both Go evaluators computes that resolution |
| `Evaluator.ResolveAllLoop` | internal/targeting/eval.go:29-43 | Every key with a value or rules is resolved, and no other, in whatever order the maps iterate |
| `Evaluator.BucketLoop` | internal/targeting/eval.go:48-81 | No variants give nil, no targeting key the first variant, else the variant the hash falls on |
| `TsEvaluator.BucketInTs` | sdk/typescript/src/eval.ts:39-61 | The TypeScript bucket, with its own hash input and its own two loops, picks what Go's does |
| `TsEvaluator.RulesLoop` | sdk/typescript/src/eval.ts:11-18 | The TypeScript loop over rules and conditions computes the resolution the agreement is about, exceptions included |
| `TsEvaluator.EvaluateLoop` | sdk/typescript/src/eval.ts:21-33 | Filling the result key by key gives every key but `__proto__` its resolution, and an exception on any key leaves no result, in whatever order the keys come |
| `TsEvaluator.DeepEqualIsEquality` | sdk/typescript/src/eval.ts:148-167 | The recursive comparison with its length-plus-inclusion check on keys is structural equality |
| `TsEvaluator.ConditionsAgree` | sdk/typescript/src/eval.ts:71-121 | A condition answers as in Go for every operator, and throws exactly when it reads a missing value list |
| `TsEvaluator.PresentAttributeInTs` | sdk/typescript/src/eval.ts:71-121 | The operators in plain terms, for the TypeScript SDK |
| `TsEvaluator.ConditionListsAgree` | sdk/typescript/src/eval.ts:64-69 | A list of conditions throws exactly when every condition before the first unreadable one matches |
| `TsEvaluator.RuleListsAgree` | sdk/typescript/src/eval.ts:11-18 | A list of rules resolves as in Go, throws, or falls back to something inherited, and exactly when |
| `TsEvaluator.EvaluatorsAgree` | sdk/typescript/src/client.ts:166-169 | For every key, rules, values and context, the TypeScript lookup gives Go's answer if and only if the key and the conditions reached are portable |
| `TsEvaluator.AllKeysAgree` | sdk/typescript/src/eval.ts:21-33 | Evaluating all keys gives Go's map if and only if every key is portable and none is `__proto__` |
| `TsEvaluator.ReadableRulesNeverTrip` | sdk/typescript/src/eval.ts:82-110 | Where every condition carries a value list, nothing throws in a condition |
| `TsEvaluator.InheritedNamesThrow` | sdk/typescript/src/eval.ts:21-33 | With any targeting map at all, exactly the twelve names a plain object inherits throw in TypeScript when a field without rules has them, and Go reads all fields |
| `TsEvaluator.ConstructorFieldThrows` | sdk/typescript/src/client.ts:166-169 | A field named `constructor`, with no rules, reads in Go and throws in TypeScript |
| `Rollouts.SelectVariant` | internal/targeting/eval.go:65-80 | The two accumulating loops pick the first variant whose cumulative weight exceeds the point |
| `Rollouts.SelectIsInterval` | internal/targeting/eval.go:71-77 | The hashes of variant i are exactly the integers between its two scaled cumulative weights |
| `Rollouts.ShareBound` | internal/targeting/eval.go:61-77 | The number of hashes of variant i is within 1 of its exact share of 2^32, and zero for zero weight |
| `Rollouts.SharesCoverEverything` | internal/targeting/eval.go:61-77 | The shares add up to 2^32 |
| `Rollouts.FallbackUnreachable` | internal/targeting/eval.go:78-80 | In exact arithmetic the final fallback is never taken, and the variant taken has positive weight |
| `Rollouts.StickyRamp` | internal/targeting/eval.go:61-80 | Raising prefix sums at equal total moves no caller to a later variant |
| `Rollouts.ScalingMovesNoOne` | internal/targeting/eval.go:61-80 | Scaling all weights by a positive factor changes no assignment |
| `Schema.JsonSchemaDoc` | internal/schema/schema.go:64-83 | The document has one property per field name, the last field of a name winning, and requires exactly the required names |
| `Schema.ValidateValues` | internal/schema/schema.go:183-194 | Validating against the document accepts exactly the values that hold every required field and whose every key is a field with an accepted value |
| `Schema.ValidateDefinition` | internal/schema/schema.go:40-61 | Accepts exactly the definitions with distinct non-empty names, known types, non-empty enums and ordered bounds |
| `Schema.FieldTakes` | internal/schema/schema.go:90-122 | Compiling a field to its JSON Schema keywords and checking those accepts exactly the values its type speaks of: strings matching the pattern, whole numbers and numbers within the range, booleans, listed values, durations, anything |
| `Schema.ValuesPassExactly` | internal/schema/schema.go:63-88 | Values pass a stored definition exactly when each is of a declared field and taken by it, and no required field is missing |
| `Schema.RulePassesExactly` | internal/targeting/validate.go:56-103 | A rule passes exactly when its operators are known and it has either a value its field takes, or no value and a rollout of such values, none of negative and some of positive weight |
| `Schema.TargetingPassesExactly` | internal/targeting/validate.go:28-54 | Targeting passes exactly when each key is a declared field whose rules all pass |
| `Schema.NamesAreUnique` | internal/schema/schema.go:46-49 | In an accepted definition every field is the one its name stands for |
| `Schema.ValidateRollout` | internal/targeting/validate.go:81-96 | Accepts exactly non-negative weights of positive total with accepted values |
| `Schema.ValidateRule` | internal/targeting/validate.go:54-79 | Accepts exactly one of value and rollout, valid, under known operators |
| `Schema.Validate` | internal/targeting/validate.go:29-52 | Accepts exactly rules for known fields, all valid, in whatever order the map iterates |
| `Soundness.BucketIsAVariant` | internal/targeting/validate.go:81-96 | An accepted rollout always gives one of its own variants' values |
| `Soundness.ResolvedKeyIsAccepted` | internal/targeting/validate.go:54-96 | For every context, a key with a base value or a matching rule resolves to a value its field accepts |
| `Soundness.EvaluationIsSound` | internal/targeting/eval.go:29-43 | The evaluated configuration is itself valid if and only if every unmatched key without a base value accepts null; it has no unknown key and every required one |
| `Soundness.WhatFitsEvaluates` | internal/targeting/eval.go:29-43 | The same from values and rules that fit field by field, in those terms |
| `Soundness.UnmatchedRuleGivesNull` | internal/targeting/eval.go:14-25 | An accepted definition, values and targeting, and a context, for which the evaluated configuration is not valid |
| `Sse.DrainIsIncremental` | sdk/typescript/src/stream.ts:73-78 | Draining the buffer after each chunk emits what draining the whole text would |
| `Sse.TsParser.OnChunk` | sdk/typescript/src/stream.ts:67-79 | After every chunk the parser has emitted exactly the payloads of all text received so far, up to the first malformed one |
| `Sse.TsParser.HandleFrame` | sdk/typescript/src/stream.ts:106-122 | A frame emits its joined data lines, nothing for a comment, and stops at a malformed payload |
| `Sse.ReadAll` | sdk/typescript/src/stream.ts:67-79 | For every split of the input into chunks, what is emitted depends on the text alone |
| `Sse.ScanLoop` | sdk/go/stream.go:82-125 | The line scanner emits the well-formed payloads of its text, and stops at a line over the cap |
| `Sse.ParsersAgree` | sdk/go/stream.go:85-125 | On every text: the two parsers find the same payloads, with no error, if and only if every line keeps within the cap, no data line of a finished frame ends in a carriage return, no lone carriage return stands between two data lines of one, and none follows a data line of the unfinished rest |
| `Sse.WithoutCRAlike` | sdk/typescript/src/stream.ts:106-113 | In particular on every text without carriage returns |
| `Sse.TooLongExactly` | sdk/go/stream.go:82-86 | The scan ends in the token-too-long error exactly when some line does not fit |
| `Sse.PrefixExactly` | sdk/go/stream.go:94-113 | With what each SDK accepts left apart, what TypeScript emits is a prefix of what Go emits if and only if Go accepts all of it |
| `Sse.SameExactly` | sdk/typescript/src/stream.ts:100-122 | And the same if and only if, besides, Go accepts nothing from TypeScript's first failure on |
| `Sse.NotAlwaysAPrefix` | sdk/typescript/src/stream.ts:116-121 | A JSON array that TypeScript hands on and Go skips, after which the two differ |
| `Sse.BothSdks` | sdk/typescript/src/stream.ts:67-122 | Both SDKs on one body in any chunks: which payloads each emits under its own notion of an acceptable one; and, on a body that meets the condition of `Sse.ParsersAgree`, exactly when what TypeScript emits is a prefix of what Go emits, or equal to it |
| `Sse.RoundTrip` | internal/api/stream_handler.go:103-113 | Both parsers recover exactly the newline-free payloads the server framed, heartbeats interleaved anywhere, leaving no remainder |
| `Sse.AnyPayloadReadsBack` | sdk/typescript/src/stream.ts:106-122 | A payload of any text sent as one data line for each of its lines, with or without the space after the colon and with other fields and comments between, is read back whole |
| `Sse.CarriageReturnsDiffer` | sdk/go/stream.go:85-90 | A CRLF event that Go reads and TypeScript never completes |
| `Backoff.RunStream` | sdk/go/knobs.go:191-229 | Each wait of the Go loop is the closed form of what the connections so far delivered: the initial delay doubled once per fruitless connection since the last fruitful one, capped, always within bounds |
| `Backoff.WaitStep` | sdk/go/knobs.go:208-227 | A fruitful connection resets the wait, a fruitless one doubles it to the cap |
| `Backoff.WaitsOnAnOutage` | sdk/typescript/src/client.ts:12-13 | Against a server that stays down the Go SDK waits 0.5, 1, 2, 4 and then 5 seconds each time, the TypeScript SDK 1, 2, 4, 8, 16 and then 30 |
| `Reconnect.TsClient.FinishLoad` | sdk/typescript/src/client.ts:133-159 | The end of the initial load opens exactly one stream, or none on a closed client |
| `Reconnect.TsClient.Resume` | sdk/typescript/src/stream.ts:48-98 | openStream from any await to the next or to its return - fetch failed, bad answer, read failed, body over, chunk with frames that may be malformed, throw, or close the client: it reports exactly when it was not cancelled by then, and then leaves one timer and returns; a cancelled stream returns |
| `Reconnect.ReportsExactly` | sdk/typescript/src/stream.ts:48-98 | openStream reports exactly on a stream not cancelled, when the fetch fails, the answer is bad, a read fails, the body ends, or a frame fails it |
| `Reconnect.FailsExactly` | sdk/typescript/src/stream.ts:73-78 | A chunk fails an uncancelled stream exactly when the first of its frames that throws comes with no payload up to it closing the client |
| `Reconnect.ReachedExactly` | sdk/typescript/src/stream.ts:73-78 | The inner loop stops after the first frame that throws, or goes through all of them |
| `Reconnect.CallsExactly` | sdk/typescript/src/stream.ts:106-122 | It makes one callback for each payload on the way |
| `Reconnect.TsClient.HandleFrames` | sdk/typescript/src/stream.ts:73-78 | The inner loop makes one callback per payload up to the first exception, cancelled or not, and fails exactly when that comes before any cancellation |
| `Reconnect.TsClient.Catch` | sdk/typescript/src/stream.ts:87-97 | The catch block aborts and reports, or says nothing of a cancelled stream |
| `Reconnect.LateExactly` | sdk/typescript/src/stream.ts:73-78 | A callback comes after the cancellation exactly when, before any exception, a payload is in a chunk that arrives on a stream cancelled already, or follows in its chunk one that closed the client |
| `Reconnect.ClosingCallbackIsNotTheLast` | sdk/typescript/src/stream.ts:18-21 | A chunk of two snapshots, of which the second is delivered after the first has closed the client |
| `Reconnect.ClosedWhileReading` | sdk/typescript/src/stream.ts:56-79 | A client closed while a read is on its way: the snapshot it brings is delivered after the close, with no closing payload in the chunk |
| `Reconnect.TsClient.OnTimer` | sdk/typescript/src/client.ts:108-116 | The timer gives way to exactly one fresh stream |
| `Reconnect.TsClient.CallBack` | sdk/typescript/src/client.ts:70-77 | A frame resets the backoff, and the client stays consistent when a listener closes it |
| `Reconnect.TsClient.Close` | sdk/typescript/src/client.ts:186-192 | After close no stream can report and no timer is pending |
| `Reconnect.TsClient.ExactlyOne` | sdk/typescript/src/client.ts:63-116 | From the end of the load until close there is exactly one of a live stream and a pending timer, set to the closed-form wait; no stream reports twice, and one cancelled first not at all; the backoff is within its bounds |
| `Limiter.LoginLimiter.PruneLocked` | internal/api/ratelimit.go:79-88 | Compacting in place on the shared array keeps exactly the hits inside the window, in order |
| `Limiter.LoginLimiter.Prune` | internal/api/ratelimit.go:68-75 | What is kept is the window of everything ever accepted, and no other key is disturbed |
| `Limiter.LoginLimiter.Allow` | internal/api/ratelimit.go:47-61 | Accepts, and records, exactly when fewer than the maximum of all attempts ever accepted lie in the window |
| `Limiter.LoginLimiter.UnderLimit` | internal/api/ratelimit.go:68-75 | Answers the same question over the whole history and records nothing |
| `Limiter.NoWindowOverflows` | internal/api/ratelimit.go:43-61 | No interval of the window's length, wherever it lies, holds more than the maximum of accepted attempts |
| `Limiter.LoginLimiter.NoKeyOverflows` | internal/api/ratelimit.go:43-61 | So whatever was asked of a limiter, no key was let through more often than the maximum in any such interval |
| `Limiter.AfterAgain` | internal/api/ratelimit.go:79-88 | What an earlier cutoff removed, no later one would have counted |

## Left out

- DeliveryTheorems.Agreement: assumes snapshots are loaded atomically, which the code does not do; `DeliveryTorn.TornDeltaSticks` shows the assumption is needed and `DeliveryTornLoads.HarmlessTornLoads` when a torn load does no harm, and the schema hash is not part of the agreement, because a schema save changes it without a new revision.
- DeliveryTheorems.NoLostUpdate: its `healthy` hypothesis stands for a Listener session that stayed up and fetches and loads that succeeded since the connection subscribed; `DeliveryLosses` has a run for each failure that shows it is needed, and `DeliveryRecovery` how a poll or a reconnect makes up for them.
- DeliveryRecovery.PollCatchesUp: is about a poll during which nothing is committed; what other polls bring is in `DeliveryTheorems.Agreement`.
- DeliveryTheorems.LeftAloneItArrives: under the atomic-loads hypothesis it starts from a state without a half-done load that a commit has overtaken, which an atomic load never is; commits, polls, disconnections and failures are no part of such a run, and the heartbeat and poll timers are not modelled in time.
- DeliveryTheorems.QuietOrInternalStep: makes that same assumption under the atomic-loads hypothesis, and none without it.
- StoreTheorems.AlwaysChangeSafe: takes committed rollbacks to fit (more than `StoreHarmless.HarmlessRollbacks` asks of them), and covers values only, since put-schema does not look at targeting.
- OwnerRuns.AlwaysAnOwner: takes promotions and additions of owners not to race a demotion that skipped the guard; `OwnerPromotions.HarmlessPromotions` shows that this is needed.
- The composed system follows delivery of one environment at a time, among writes to any number of them.
- The delivery machine has one server instance and one connection of the client at a time; its client is the Go one, with resyncs that need not finish before the next frame, as in TypeScript.
- A failed first load: the Go client tries again, as modelled; the TypeScript client starts empty at revision 0, which in the model is the start of an environment without a version.
- A second call of `Ready` replaces the snapshot without the revision gate; the delivery machine has one.
- When re-reading the environment fails, the stream handler falls back to the row read before subscribing; the model treats it as a failed initial load.
- The Go stream's resync runs inside the frame callback and so holds up later frames; the model lets frames pass it, which includes every order the code can take.
- Database effects are those of READ COMMITTED with `FOR UPDATE` and `UPDATE` holding a row until the end; a statement sees one committed state, and environments and versions are never deleted.
- The order in which put-schema checks environments is open, and which broken environment its conflict names is not stated; neither are error texts.
- Two fields of one name cannot be stored, but are modelled, as the last one winning.
- Numbers are reals: rounding, NaN, infinities and negative zero are left out, and with them the Go numeric kinds that JSON never decodes to.
- The TypeScript comparison of two references to one object (`Object.is`) is not modelled; it only answers sooner what the structural comparison answers.
- onError, which only sets a timer, is taken not to throw.
- SHA-256 is an arbitrary function to 32-bit numbers; the regular-expression engine is an arbitrary oracle; of the JSON Schema library, the keywords `fieldSchema` emits.
- JSON encoding and decoding: payloads are newline-free strings, and for each SDK an arbitrary predicate says which of them it takes (parsed and handed to a callback without an exception in TypeScript, unmarshalled into the frame's struct in Go); the scanner's cap counts characters instead of bytes.
- The Hub's two-level map of channels is one map keyed by environment and id, and its mutex is the atomicity of the three methods, except in `HubRace`.
- `parsePayload`, HTTP, sessions, tokens, roles' ranking, audit rows, drift warnings, listener registration, code generation and the web interface: plumbing with no property across functions.
