# Clipboard node: a verified model

A clipboard node shares the text clipboard of a machine over a topic bus. A local copy is published as a
text event; a remote event is queued or written to the local clipboard; the write comes back from the
clipboard watcher as if the user had copied it, and must be swallowed. This project models that runtime,
the parts it stands on, and the two lists and two objects around it, and proves what they keep.

## What is modelled

| file | what it models |
|---|---|
| `Dedupe.dfy` | the bounded string set behind de-duplication and loop suppression, in place |
| `Config.dfy`, `ConfigStore.dfy` | the configuration, its normaliser, and its file |
| `Text.dfy`, `Json.dfy`, `Event.dfy`, `Manifests.dfy` | strings, the JSON string form (section 7 of RFC 8259), the text event and the transfer manifest, with their wire forms |
| `World.dfy`, `Topics.dfy` | the bus and the clipboard, each call of which may fail; the topic lists |
| `Sync.dfy`, `Runtime.dfy` | the runtime, as functions on its state and as the object that updates its fields |
| `Effects.dfy`, `Laws.dfy` | what one step can do to memory; the invariant, conservation and at-most-once laws of every run |
| `Answers.dfy`, `Lifecycle.dfy` | what every handler answers and remembers, each answer as an if-and-only-if; when the lifecycle calls take effect, and which configuration is in force |
| `Policy.dfy`, `Subscriptions.dfy` | what may be written and published; what the hub holds for the node |
| `HubFailures.dfy`, `Witnesses.dfy` | exactly which failing calls leave hub and watcher wrong; runs into each situation the exact conditions speak of |
| `Network.dfy`, `Storms.dfy` | several nodes on one bus, with their echoes; a run in which they publish more than was copied |
| `History.dfy`, `HistoryLaws.dfy`, `DartHistory.dfy` | the body-history store, its reference, and the list of the Dart UI |
| `HistoryFields.dfy`, `DartFields.dfy` | every field of the entries of both, and the operation each entry comes from |
| `Transport.dfy`, `Engine.dfy` | the identity side of the hub client, and the engine over client and runtime |
| `ClipboardWatch.dfy` | the poll loop that watches the clipboard on Unix systems |

`dfyconfig.toml` makes `dafny verify dfyconfig.toml` check the whole project.

One public handler of the runtime is one atomic step. The bus is the set of topics the hub holds for the
node and a log of calls; any call may fail, with no effect, and the failing ones are given by number, so a
statement for all environments is one for every pattern of failures. The hash is any function whose values
look like digests. Received bytes come with whatever the decoder makes of them; identifiers and clocks are
inputs. Fields updated in place are fields of a class (`Dedupe.BoundedStringSet`, `Runtime.Runtime`,
`World.Host`, `ConfigStore.Store`, `History.HistoryStore`, `Transport.Client`, `Engine.Engine`); every
method is tied to a function of the old state, and the laws are proved about those functions over all
sequences of inputs.

The laws go through `Effects.StepEffect`: whatever the input and whatever fails, a step has one of seven
effects on memory. Invariants, conservation, at-most-once and the network bound are each proved once per
effect. The network law counts published text events on one side and user copies on the other. An echo is
protected while a token, its digest in the suppression set, is left for it. A user copy of the same text
takes a token too, and pays for it; an apply can leave an echo uncovered, because the set is full and a token
still needed is driven out or because one token already stands for an earlier echo of the same digest, and
the law counts such applies. Echoes are counted one for each write, so the law covers a watcher that merges
equal texts and one that does not. A network without such an apply publishes no more text events than its
users copied; one with it can publish more (`Storms.StormHappens`).

## What turned out differently from what one expects

Each of these is a lemma with an input that shows it; where it is a failing property, the lemma beside it
says exactly when it holds.

- A full set can evict the very value being added, because a stale copy of it leads the list
  (`Dedupe.AddMayLoseItsArgument`; exactly when: `Dedupe.AddRetainsExactly`). The list can outgrow twice
  the limit (`Dedupe.ChurnGrows`; exactly when: `Dedupe.GrowsExactly`; over runs: `Dedupe.ListBounded`).
- A text within the inline limit may be refused by every receiver, because escaping lengthens it beyond the
  envelope (`Event.InLimitTextMayNotParse`; exactly when: `Event.TextEventRoundTrip`). A manifest with a long
  transfer reference is published and refused by every receiver (`Manifests.LongReferenceMayNotParse`,
  `Policy.ManifestOutExactly`; exactly when: `Manifests.MadeManifestParsesExactly`).
- With a suppression set too small for the echoes to come, remote texts are published again
  (`Storms.StormHappens`; exactly which applies cost an echo its token: `Network.GrantExactly`).
- A metadata-only file whose limit stands under a differently cased key is migrated to keep bodies, though the
  limit is read (`ConfigStore.CasedLimitIsMigrated`; exactly when: `ConfigStore.MigrationFiresExactly`).
- An event that is remembered can still be applied, if a manifest with its identifier arrived while its
  text was waiting (`Witnesses.RememberedStillApplies`; exactly when: `Laws.RememberedApplyExactly`).
  Applying it twice remains impossible while it stays remembered (`Laws.AtMostOnce`).
- Sync switched off while the runtime is stopped leaves waiting texts that can still be written
  (`Witnesses.StoppedDisableWrites`; exactly when: `Policy.DisableClearsExactly`).
- With a failing Unsubscribe, a start, a stop, a change, a restore or switching off can leave the hub with
  topics nobody asked for, and no later enable cleans them up (`Witnesses.ChangeGoesWrong` and its
  neighbours, `HubFailures.LeftoverStays`; exactly when: `HubFailures.StepExactly`). A change can also lose
  track of the clipboard watcher it started or stopped (`Witnesses.WatcherGoesWrong`; exactly when:
  `HubFailures.ChangeExactly`).
- A restore that is refused half way takes away topics that were never lost, though every Unsubscribe works
  (`Witnesses.RestoreGoesWrong`; exactly when: `Subscriptions.RestoreExactly`).
- With limit 1 the history store keeps two entries and shows one (`HistoryLaws.LimitOneStoresTwo`; exactly
  when: `HistoryLaws.OverLimitExactly`; over runs: `HistoryLaws.StoredBounded`).
- The UI would put an empty restored text at the head of its list, where the store refuses it
  (`DartHistory.PromoteAgreesExactly`). A raised limit brings entries back in the store that the list of the
  UI no longer has, until the bridge sends its view (`DartHistory.RaisedLimitParts`, `RefreshAgrees`; exactly
  when: `DartHistory.ApplyAgreesExactly`; over runs: `DartHistory.AgreeExactly`).
- The hub client alone may report a login that was never sent (`Transport.RegisterAloneLooksLoggedIn`;
  exactly when: `Transport.LoginMeantExactly`); the engine never does (`Engine.StartEndsUpOrDown`). A
  running engine does not follow a new hub address (`Engine.EndpointGoesStale`; exactly when:
  `Engine.EndpointFollowedExactly`). It shows a new configuration even when its runtime refused it
  (`Engine.EngineRunsAhead`; exactly when: `Engine.InStepOverRuns`).

Where the documents say otherwise, the model follows the code: `docs/specs/clipboard-sync.md:356` has the
de-duplication windows bounded by count and age, but there is no age; `docs/requirements/clipboard-sync.md:95`
wants a positive history limit and persisted history trimmed to it, but zero is taken for the default and
limit 1 persists two entries; `docs/specs/clipboard-sync.md:360` has body history cleared when retention
changes, but when the save fails only memory is cleared and reopening brings the texts back
(`HistoryLaws.ClearedTextComesBack`; exactly when: `HistoryLaws.SwitchedOffExactly`).

## Model

| member | source | states |
|---|---|---|
| `Dedupe.BoundedStringSet.Add` | core/runtime/dedupe.go:19-29 | the set after an insertion in place, with the popping loop and the compaction, is the specified window |
| `Dedupe.BoundedStringSet.Consume` | core/runtime/dedupe.go:36-42 | removes the value from the set only and says whether it was there; the insertion list keeps its stale copy |
| `Dedupe.BoundedStringSet.TrimInPlace` | core/runtime/dedupe.go:44-59 | the eviction loop ends on the length of the list and leaves the specified window |
| `Dedupe.CompactInPlace` | core/runtime/dedupe.go:50-58 | compacting over the storage still being read leaves exactly the listed copies of live values, in order |
| `Dedupe.LiveMembership` | core/runtime/dedupe.go:50-58 | the compacted list holds a value exactly when it was listed and is live |
| `Dedupe.EvictOldest` | core/runtime/dedupe.go:44-49 | one value too many: eviction takes out the first listed live value and nothing else, and what is left is still listed |
| `Dedupe.AddExact` | core/runtime/dedupe.go:19-59 | which member an insertion into a full set costs, and that below the limit it costs none |
| `Dedupe.AddValid` | core/runtime/dedupe.go:19-59 | an insertion keeps the set bounded and listed, brings in nothing else and evicts at most one member |
| `Dedupe.ReachableValid` | core/runtime/dedupe.go:9-59 | after any mix of Add and Consume the set is a subset of the list and within the limit |
| `Dedupe.AddRetainsExactly` | core/runtime/dedupe.go:19-49 | an insertion loses its own argument if and only if the set is full and a stale copy of the argument stands before every live value |
| `Dedupe.AddMayLoseItsArgument` | core/runtime/dedupe.go:36-49 | a reachable state where that happens: the value just added is the one evicted |
| `Dedupe.ChurnGrows` | core/runtime/dedupe.go:36-58 | adding and consuming one value n times leaves n stale copies: the list is not bounded by twice the limit |
| `Dedupe.GrowsExactly` | core/runtime/dedupe.go:44-58 | adding a fresh value leaves a list longer than twice the limit if and only if that many listed copies, of the state before, are of values that stay |
| `Dedupe.ListBounded` | core/runtime/dedupe.go:19-58 | as long as no value is added again over a stale copy of itself, the list has no duplicates and never outgrows twice the limit, in every run |
| `Dedupe.AddFifo` | core/runtime/dedupe.go:19-29 | with Add only, the list is the last limit items of the old list and the new value |
| `Dedupe.WindowExact` | core/runtime/dedupe.go:19-49 | with Add only, list and set are exactly the last limit fresh insertions of an unbounded log |
| `Dedupe.RememberedForLimit` | core/runtime/dedupe.go:19-49 | a fresh insertion stays contained through at least limit - 1 later fresh ones |
| `Config.NormalizeTopicRoutes` | core/runtime/config.go:137-169 | the loop with its set of seen topics accepts exactly the bounded lists whose trimmed topics are distinct and non-empty |
| `Config.NormalizeConfig` | core/runtime/config.go:71-135 | the step-by-step normaliser computes the specified configuration or refuses |
| `Config.FillIdentity` | core/runtime/config.go:83-96 | fallback order of device identifier and display name, with the legacy label between |
| `Config.Check` | core/runtime/config.go:108-133 | the final checks, one after the other, accept exactly the coherent records |
| `Config.NormalizedIsNormal` | core/runtime/config.go:71-169 | an accepted configuration has 1 to 32 trimmed, non-empty, pairwise distinct topics, the scalar topic is the first, and every other field is normal |
| `Config.NormalizeFixedPoints` | core/runtime/config.go:71-169 | the configurations the normaliser leaves alone are exactly the normal ones |
| `Config.NormalizeIdempotent` | core/runtime/config.go:71-135 | normalising twice is normalising once |
| `Config.AcceptedExactly` | core/runtime/config.go:98-133 | which inputs are accepted, as a condition on the raw fields |
| `Config.NormalizedFieldsExactly` | core/runtime/config.go:71-169 | every field of an accepted configuration from the fields as given: trimmed if given, else the legacy label or the other fallback in order, else the default; routes in order with their flags |
| `ConfigStore.Store.Load` | core/configstore/store.go:24-46 | defaults for a missing file, refusal of an unreadable or undecodable one, otherwise the normalised and migrated content |
| `ConfigStore.Store.Save` | core/configstore/store.go:62-71 | the file changes exactly when the configuration is accepted and the replacement succeeds, and then loads as the normalised input |
| `ConfigStore.LoadAfterSave` | core/configstore/store.go:24-71 | Load after Save returns the normalised input, for every accepted configuration |
| `ConfigStore.LoadIsStable` | core/configstore/store.go:24-71 | whatever was on disk, a loaded configuration is normal and saving it loads as itself |
| `ConfigStore.MigrationFiresExactly` | core/configstore/store.go:48-60 | the legacy migration changes exactly metadata files without a limit under the very key it looks for, and never a file that Save wrote |
| `ConfigStore.CasedLimitIsMigrated` | core/configstore/store.go:48-60 | a metadata file whose limit stands under a differently cased key has its limit decoded and is migrated all the same |
| `ConfigStore.LoadedFieldsExactly` | core/configstore/store.go:24-60 | every field of a loaded configuration by the keys of the file, migration included |
| `ConfigStore.EmptyFileIsDefault` | core/configstore/store.go:24-46 | a file without a single field loads as the defaults, as a missing file does |
| `Text.TrimCutsSpaces` | core/runtime/event.go:154-183 | trimming removes spaces at the two ends and nothing else |
| `Event.DigestSurvivesWire` | core/runtime/event.go:82-146 | size and digest are not sent, yet every receiver that accepts an event finds those the inspection of the sender found, whatever their limits |
| `Event.InspectText` | core/runtime/event.go:68-80 | accepts exactly the inspectable texts within the byte limit |
| `Event.NormalizeIdempotent` | core/runtime/event.go:154-183 | a normalised event is a fixed point and has a trimmed, non-empty identifier |
| `Event.ParsesExactly` | core/runtime/event.go:154-219 | which received bytes are a text event, as an if-and-only-if on the decoded fields, and each field of what is made of them |
| `Event.WireRoundTrip` | core/runtime/event.go:195-219 | for every event, whatever its version, decoding its encoding gives the event back, up to the two derived fields that are not sent |
| `Event.TextEventRoundTrip` | core/runtime/event.go:195-219 | Parse of Marshal is the normalised event if and only if the encoding fits the envelope, for any decoder that reads what was written |
| `Event.TextEventRoundTripConcrete` | core/runtime/event.go:195-219 | the same with a concrete reader, no assumption on the decoder left |
| `Json.StringRoundTrip` | core/runtime/event.go:195-219 | a quoted string reads back, whatever follows it (section 7 of RFC 8259) |
| `Json.EscapedLenBounds` | core/runtime/event.go:195-201 | an escaped string is between one and six times as long as the text |
| `Event.EncodedLen` | core/runtime/event.go:195-219 | the exact number of bytes of an encoded event |
| `Event.ShortFieldsFit` | core/runtime/event.go:195-219 | a bound on the escaped fields that is enough for the round trip |
| `Event.InLimitTextMayNotParse` | core/runtime/event.go:195-219 | a text within the inline limit whose event every receiver with the same limit refuses |
| `Manifests.ManifestRoundTrip` | core/runtime/event.go:34-52 | every manifest with a reference, any number of them, with or without its optional fields, is read back whole from its encoding |
| `Manifests.EncodedManifestLen` | core/runtime/event.go:34-52 | the exact number of bytes of an encoded manifest |
| `Manifests.ManifestParsesExactly` | core/runtime/event.go:318-341 | a valid manifest is read back by its receivers if and only if its encoding is within their limit |
| `Manifests.MadeManifestParsesExactly` | core/runtime/event.go:221-341 | a manifest the runtime makes is taken by its receivers if and only if a sum over the fields the sender knows beforehand is within their limit |
| `Manifests.LongReferenceMayNotParse` | core/runtime/event.go:221-341 | a long transfer reference for which a manifest is made that no receiver takes, whatever its decoder |
| `Event.ManifestTakenExactly` | core/runtime/event.go:260-341 | which received bytes are a manifest, as an if-and-only-if on the decoded fields; it is taken as it was sent |
| `World.Host.SubscribeTopics` | core/runtime/runtime.go:1027-1039 | subscribes in order, stops at the first refusal, and returns the topics already taken |
| `World.Host.UnsubscribeTopics` | core/runtime/runtime.go:1041-1052 | tries every topic whatever fails, and reports whether all were dropped |
| `World.Host.PublishToAll` | core/runtime/runtime.go:536-569 | publishes in order and stops at the first refusal |
| `Topics.CollectSubscriptionTopics` | core/runtime/runtime.go:953-961 | the loop collects the topics of an enabled configuration |
| `Topics.CollectPublishTopics` | core/runtime/runtime.go:963-971 | the loop collects the topics open to local text, in order |
| `Topics.FindRoute` | core/runtime/runtime.go:973-981 | the first route of the topic, if there is one |
| `Topics.CollectTopicsToSubscribe` | core/runtime/runtime.go:983-999 | the topics wanted now and not before, in order |
| `Topics.CollectTopicsToUnsubscribe` | core/runtime/runtime.go:1001-1017 | the topics wanted before and not now, in order; none when sync is switched off |
| `Topics.TopicDifferences` | core/runtime/runtime.go:983-1017 | as sets, the two lists are the two differences of the old and the new topics |
| `Topics.PublishTopicsHold` | core/runtime/runtime.go:963-971 | local text goes to a topic if and only if it is not empty and some route for it syncs from local |
| `Topics.RouteForIs` | core/runtime/runtime.go:973-981 | the route of a message is the first one whose topic is the trimmed topic of the message, and there is none if and only if no route has it |
| `Runtime.Runtime.New` | core/runtime/runtime.go:136-190 | a runtime is refused exactly for a configuration, node number or instance that is not accepted |
| `Runtime.Runtime.constructor` | core/runtime/runtime.go:149-190 | a runtime is made with the normalised configuration, empty memory and the default or the given limits |
| `Runtime.Runtime.Start` | core/runtime/runtime.go:192-266 | the object after a start, with the rollback of subscriptions when Subscribe or WatchText fails |
| `Runtime.Runtime.Stop` | core/runtime/runtime.go:275-313 | the object after a stop: no session, no watcher, subscriptions dropped as far as the bus lets it |
| `Runtime.Runtime.UpdateConfig` | core/runtime/runtime.go:315-453 | the object after a configuration change, on every path including each rollback |
| `Runtime.Runtime.DisableSync` | core/runtime/runtime.go:354-386 | switching sync off clears the waiting events and the session even if an Unsubscribe fails |
| `Runtime.Runtime.ChangeConfig` | core/runtime/runtime.go:388-452 | the change between two configurations that does not switch sync off |
| `Runtime.Runtime.DropOldTopics` | core/runtime/runtime.go:418-426 | topics no longer wanted are dropped; on failure the topics just added are taken back, the dropped ones are not |
| `Runtime.Runtime.CommitChange` | core/runtime/runtime.go:415-452 | the new configuration and watcher are kept only if the old topics could be dropped |
| `Runtime.Runtime.OnConnectivityRestored` | core/runtime/runtime.go:455-479 | resubscription after a lost connection, with rollback |
| `Runtime.Runtime.HandleLocalText` | core/runtime/runtime.go:481-570 | the object, the decision and the error flag after a local text |
| `Runtime.Runtime.HandleInline` | core/runtime/runtime.go:514-527 | an expected echo is consumed, a repetition skipped, anything else published |
| `Runtime.Runtime.PublishInline` | core/runtime/runtime.go:529-570 | fan-out of an encoded event; only a complete fan-out is remembered |
| `Runtime.Runtime.PublishManifest` | core/runtime/runtime.go:719-781 | fan-out of a transfer manifest for a text over the limit |
| `Runtime.Runtime.HandleTopicBusMessage` | core/runtime/runtime.go:626-669 | dispatch of a bus message, with every refusal in its order |
| `Runtime.Runtime.HandleText` | core/runtime/runtime.go:663-717 | a remote text is ignored, queued or applied |
| `Runtime.Runtime.HandleManifest` | core/runtime/runtime.go:783-808 | a remote manifest is noted once |
| `Runtime.Runtime.ApplyPending` | core/runtime/runtime.go:572-606 | a waiting text is written, removed and remembered, or kept if the write fails |
| `Runtime.Runtime.AddPendingLocked` | core/runtime/runtime.go:897-923 | the map, the list, the recent window and the evictions after queueing |
| `Runtime.Runtime.EvictOldPending` | core/runtime/runtime.go:905-913 | the eviction loop of the waiting events |
| `Runtime.Runtime.DeletePendingLocked` | core/runtime/runtime.go:925-934 | the map without the event and the list without its first copy |
| `Effects.StepEffect` | core/runtime/runtime.go:192-808 | every step, whatever its input and whatever fails, changes memory in one of seven ways; only accepted messages queue or apply, only a user request releases, only local text consumes a token |
| `Effects.ParsedHasID` | core/runtime/event.go:154-219 | an event that parses has a trimmed, non-empty identifier and the digest of its own text |
| `Laws.AddPendingEffect` | core/runtime/runtime.go:897-923 | queueing into a full inbox takes out exactly the oldest event and remembers it; otherwise nothing else changes |
| `Laws.CompactionNotReached` | core/runtime/runtime.go:915-922 | queueing any event, new or already waiting, into an inbox of a reachable state never leaves a list long enough to be compacted |
| `Laws.DeletePendingOk` | core/runtime/runtime.go:925-934 | removing a waiting event keeps the list a duplicate-free listing of the map |
| `Laws.EffectInv` | core/runtime/runtime.go:481-934 | each of the seven effects keeps memory bounded and consistent and every event accounted for |
| `Laws.CreatedInv` | core/runtime/runtime.go:136-190 | a new runtime satisfies the invariant of all later states |
| `Laws.RunInv` | core/runtime/runtime.go:192-934 | every reachable state: bounded windows, a duplicate-free listing of at most limit waiting events, and every event accounted for |
| `Laws.PendingConservation` | core/runtime/runtime.go:354-369 | in every run the events made pending are those still pending, applied from there, evicted, or dropped by a disable |
| `Laws.SuppressionConservation` | core/runtime/runtime.go:514-520 | for every digest, in every run, swallowed local copies plus the token still held never exceed remote applies |
| `Laws.RunsAreTraces` | core/runtime/runtime.go:192-808 | the states of a run are good states, each reached by one of the seven effects |
| `Laws.AtMostOnce` | core/runtime/runtime.go:670-716 | in every run, between two inputs that apply one event there is a state in which that event is not remembered |
| `Laws.WindowBetweenApplies` | core/runtime/runtime.go:670-716 | between two applies of one event, the first of them made while it was not remembered, at least as many new identifiers went into the recent window as it holds |
| `Laws.NoReapplyWithinWindow` | core/runtime/runtime.go:670-716 | so an event applied while not remembered is not applied again by any of the next limit inputs |
| `Laws.RememberedApplyExactly` | core/runtime/runtime.go:572-606 | a remembered event is never queued, and is applied if and only if the user releases a copy still waiting and the write succeeds |
| `Laws.ManifestRemembersWaitingEvent` | core/runtime/runtime.go:783-808 | how a waiting event comes to be remembered, by a manifest with its identifier, and that its text can still be applied then |
| `Witnesses.RememberedStillApplies` | core/runtime/runtime.go:572-606 | a run from a new runtime into that state, and the apply |
| `Witnesses.SomeForeignEvent` | core/runtime/event.go:154-183 | the runs that begin with an event from elsewhere exist: there is such an event, already in normal form |
| `Policy.PublishAllCalls` | core/runtime/runtime.go:536-569 | the calls of a fan-out: one per topic in order up to and including the first refusal |
| `Policy.PublishTextCalls` | core/runtime/runtime.go:529-570 | a published decision means exactly one successful publish per topic open to local text, in order |
| `Policy.PublishedExactly` | core/runtime/runtime.go:481-570 | when a local text is published everywhere and when it is swallowed as an echo, each as an if-and-only-if on the state before |
| `Policy.ManifestOutExactly` | core/runtime/runtime.go:719-784 | when a manifest goes out for a text, as an if-and-only-if on the state before; the length of its encoding is no part of it |
| `Policy.TakenExactly` | core/runtime/runtime.go:626-717 | when a remote text is queued and when it is applied on arrival, each as an if-and-only-if on the message and the state before |
| `Answers.RefusalsExactly` | core/runtime/runtime.go:626-668 | when a message is refused as disabled, off topic, off policy, of another name or invalid, each as an if-and-only-if; such an answer names the topic alone and changes nothing |
| `Answers.TransferAnswersExactly` | core/runtime/runtime.go:783-808 | a valid manifest is announced, ignored as a duplicate or ignored as local, each as an if-and-only-if on origin and recent window; it is remembered from then on |
| `Answers.TextAnswersExactly` | core/runtime/runtime.go:664-717 | a valid text event is ignored as local or duplicate, queued, applied, or not written, each as an if-and-only-if; what is queued, written and remembered, and what the answer says |
| `Answers.AnnouncedOncePerWindow` | core/runtime/runtime.go:783-808 | over runs, between two announcements under one identifier it left the recent window, and at least as many new identifiers went in as the window holds |
| `Answers.InlineAnswersExactly` | core/runtime/runtime.go:507-570 | what becomes of a text inspected inline, every answer as an if-and-only-if on the state before and the publishes that are refused; what it changes and what the answer says |
| `Answers.TooLongAnswersExactly` | core/runtime/runtime.go:719-781 | the same for a text too long for that, on the manifest path |
| `Answers.NoTextAnswers` | core/runtime/runtime.go:481-515 | anything else is answered with disabled, no bus or invalid, and changes nothing |
| `Answers.LastHashIsLatest` | core/runtime/runtime.go:554-566 | in every run the last local digest is that of the latest decision that a text or a manifest went out, or empty |
| `Answers.UnchangedExactly` | core/runtime/runtime.go:523-528 | from a new runtime on, a text is ignored as unchanged if and only if it is inspected inline, not expected as an echo, and the very one that went out last |
| `Answers.FailedCopyIsRetried` | core/runtime/runtime.go:554-566 | a text whose fan-out was refused goes out when it is copied again and the bus works |
| `Answers.BuiltExactly` | core/runtime/event.go:116-201 | when an event can be made of an inspected text, as an if-and-only-if, and each field it carries |
| `Answers.OriginSurvivesWire` | core/runtime/event.go:116-219 | what arrives of an event names the node, instance, label, identifier and text it was sent with, and is local to exactly those nodes that share the number or the instance |
| `Answers.MadeExactly` | core/runtime/event.go:221-306 | when a manifest can be made of a digest, as an if-and-only-if, and each field it carries |
| `Answers.ApplyAnswersExactly` | core/runtime/runtime.go:572-606 | a released text is applied or kept, by the write alone; what is written, remembered and removed; what does not wait is refused without a trace |
| `Answers.StepGrows` | core/runtime/runtime.go:192-808 | every step logs its own answer or nothing, and moves the last local digest only with a publication |
| `Answers.CreatedBlank` | core/runtime/runtime.go:136-190 | a new runtime has nothing remembered, sent, waiting, running or called, and each limit where it belongs |
| `Answers.WaitingInOrder` | core/runtime/runtime.go:897-934 | in every run the waiting events are listed in the order they were queued, so a full inbox evicts the one that waited longest |
| `Policy.StepCalls` | core/runtime/runtime.go:192-808 | every bus or clipboard call of every step is one its input allows: a publish carries the text of that very input, as its event or as the manifest that stands for it |
| `Policy.WritesWereAccepted` | core/runtime/runtime.go:572-716 | in every run, each clipboard write is the text of an event that arrived while enabled, on a route that syncs to local, from elsewhere |
| `Policy.PublishesWereLocal` | core/runtime/runtime.go:481-570 | in every run, the call of each publish was made by an input that was local text, met while enabled with that topic open to local text, and carries that text as its event, or, refused inline, as its manifest |
| `Policy.DisableClearsExactly` | core/runtime/runtime.go:350-386 | switching sync off empties the waiting events if and only if the runtime is started or none waits |
| `Policy.StoppedDisableStillWrites` | core/runtime/runtime.go:329-349 | the exception: switched off while stopped, a waiting text can still be written |
| `Witnesses.StoppedDisableWrites` | core/runtime/runtime.go:329-349 | a run from a new runtime that does so: a text arrives, stop, switch off, release |
| `Policy.DisabledIsSilent` | core/runtime/runtime.go:354-386 | once off with nothing waiting, no input before the next enable publishes or writes anything |
| `Policy.NothingWaitsWhileOff` | core/runtime/runtime.go:350-386 | if the configuration is changed only while started, nothing waits while sync is off |
| `Subscriptions.SubscribeAllTopics` | core/runtime/runtime.go:1027-1039 | what the hub holds after a subscription loop, and which topics the rollback list names |
| `Subscriptions.UnsubscribeAllTopics` | core/runtime/runtime.go:1041-1052 | the hub keeps exactly the topics whose Unsubscribe failed |
| `Subscriptions.StartKeeps` | core/runtime/runtime.go:192-266 | when Unsubscribe works, a start keeps hub and session in step with the configuration, rolled back or not |
| `Subscriptions.StopKeeps` | core/runtime/runtime.go:275-313 | when Unsubscribe works, a stop leaves no subscription and no watcher |
| `Subscriptions.UpdateKeeps` | core/runtime/runtime.go:315-453 | when Unsubscribe works, a configuration change keeps hub and session in step, also when Subscribe or WatchText fails |
| `Subscriptions.RestoreKeeps` | core/runtime/runtime.go:455-479 | when Unsubscribe works, a restore never leaves an unwanted topic, and a successful one leaves exactly the wanted ones |
| `Subscriptions.RestoreExactly` | core/runtime/runtime.go:455-479 | when Unsubscribe works, a restore of a live connection keeps the hub exact if and only if every Subscribe is taken or the very first is refused |
| `Subscriptions.SubscriptionsBounded` | core/runtime/runtime.go:192-479 | in every run in which Unsubscribe works, with Subscribe, WatchText and connections failing anywhere, the hub never holds a topic that is not configured, and the running watchers are those of the session |
| `Subscriptions.SubscriptionsExact` | core/runtime/runtime.go:192-479 | in every run in which Unsubscribe works, no connection is lost and no restore of a live one stops half way, the hub holds exactly the configured topics when started and enabled, and none otherwise |
| `Subscriptions.CreatedExact` | core/runtime/runtime.go:136-190 | a new runtime starts in such a state |
| `Subscriptions.UninterruptedTopics` | core/runtime/runtime.go:388-426 | a change between two enabled configurations makes no call on a topic in both or in neither, whatever fails |
| `Lifecycle.StartTakesEffectExactly` | core/runtime/runtime.go:192-265 | a start succeeds, and the runtime is started, if and only if it is started already, sync is off, or the adapters are there and every call is taken |
| `Lifecycle.StopTakesEffectExactly` | core/runtime/runtime.go:275-313 | a stop always stops, and succeeds if and only if every Unsubscribe is taken and the clipboard closes |
| `Lifecycle.RestoreTakesEffectExactly` | core/runtime/runtime.go:455-479 | a restore succeeds if and only if nothing is to be restored or every Subscribe is taken |
| `Lifecycle.UpdateTakesEffectExactly` | core/runtime/runtime.go:315-453 | an update succeeds if and only if it is accepted, has the adapters it needs and every call it makes is taken, by call numbers; the new configuration is in force then and when sync is switched off, and otherwise the old one is |
| `Lifecycle.UpdateMeans` | core/runtime/runtime.go:315-453 | from a state in order, an update that reports success leaves hub, session and watcher in order with the new configuration |
| `Lifecycle.ConfigIsLastAdopted` | core/runtime/runtime.go:192-453 | over every run the configuration in force is that of the last update that took hold, and the runtime is started if and only if a start worked and no stop came since |
| `HubFailures.StartExactly` | core/runtime/runtime.go:192-266 | with any call failing, a start leaves the hub right if and only if the topics already taken can be taken back, by the numbers of the failing calls |
| `HubFailures.StopExactly` | core/runtime/runtime.go:275-313 | with any call failing, a stop leaves the hub empty if and only if every Unsubscribe is taken |
| `HubFailures.DropTopicsExactly` | core/runtime/runtime.go:418-426 | the last part of a change: from the old and the new topics to those of the resulting configuration, if and only if all old ones are dropped, or none is and all new ones are taken back |
| `HubFailures.ChangeExactly` | core/runtime/runtime.go:388-452 | a change, with any call failing: when the hub ends right and when the session loses the clipboard watcher, each as an if-and-only-if on the state before and the failing calls |
| `HubFailures.UpdateExactly` | core/runtime/runtime.go:315-453 | the same for the whole of UpdateConfig, refused, stopped, switched off or changed |
| `HubFailures.RestoredExactly` | core/runtime/runtime.go:455-479 | with any call failing, a restore keeps the hub right if and only if all topics are taken, or none of those taken back is dropped |
| `HubFailures.StepExactly` | core/runtime/runtime.go:192-808 | for every input, from a state in order: the hub is right afterwards, and everything in order, exactly under a condition on the state before and the failing calls |
| `HubFailures.RunExactly` | core/runtime/runtime.go:192-808 | in every run hub, session and watcher follow the configuration at every point if and only if the failing calls of each step settle |
| `HubFailures.DisableLeaves` | core/runtime/runtime.go:354-386 | switching off leaves on the hub exactly the topics whose Unsubscribe failed, and a later enable that does not ask for them leaves them there |
| `HubFailures.LeftoverStays` | core/runtime/runtime.go:983-1017 | a topic left over stays on the hub through any inputs that do not ask for it |
| `Witnesses.ChangeGoesWrong` | core/runtime/runtime.go:418-426 | a run in which a failed change leaves the hub with the old and the new topic, the old configuration still in force |
| `Witnesses.DisableGoesWrong` | core/runtime/runtime.go:354-386 | a run in which a topic outlives switching off and the next enable |
| `Witnesses.StopGoesWrong` | core/runtime/runtime.go:275-313 | a run in which the topic outlives a stop: the hub holds it and nothing is asked for |
| `Witnesses.StartGoesWrong` | core/runtime/runtime.go:225-236 | a run in which a refused start leaves its first topic on the hub and nothing is asked for |
| `Witnesses.RestoreGoesWrong` | core/runtime/runtime.go:455-479 | a run in which a refused restore takes away the first topic, which was never lost, and both are still asked for |
| `Witnesses.WatcherGoesWrong` | core/runtime/runtime.go:397-426 | runs in which the watcher started by the failed change runs and the session knows of none, and in which none runs and the session still believes in the one stopped |
| `Network.LocalSpends` | core/runtime/runtime.go:514-570 | a local text publishes only without a token for it, and at most spends that token |
| `Network.GrantExactly` | core/runtime/runtime.go:710-715 | an apply leaves exactly one more echo unprotected when its token is held already and needed by an earlier echo of its digest, or drives out a token that an echo to come needs, and none otherwise |
| `Network.OtherBound` | core/runtime/runtime.go:572-717 | no other input publishes, and the unprotected echoes grow by exactly the applies that leave an echo uncovered |
| `Network.NodeStepBalanced` | core/runtime/runtime.go:481-717 | each step of a node keeps published events plus unprotected echoes within copies plus applies that leave an echo uncovered |
| `Network.NoSyncStorm` | core/runtime/runtime.go:481-717 | no storm: over any number of nodes, any delivery order, repetition or loss, any reconfiguration, and echoes merged or not, text events published plus echoes to come without a token never outnumber user copies plus applies that leave an echo uncovered |
| `Storms.StormHappens` | core/runtime/runtime.go:481-717 | the count is needed: a run of two new nodes, room for one token, in which two texts are copied, one apply leaves an echo uncovered, and three text events are published |
| `Network.DefaultNodeBoots` | core/runtime/runtime.go:136-190 | the starting states of the network laws exist: any identity with the default configuration and limits |
| `Network.DeliveredText` | core/runtime/event.go:195-219 | what a receiver accepts has the text its sender encoded |
| `Network.TextsComeFromUsers` | core/runtime/runtime.go:481-717 | on every node of every reachable network each text waiting, written, published or due as an echo is one a user copied |
| `History.HistoryStore.Entries` | cmd/clipboardnode-bridge/history_store.go:48-59 | what is shown: nothing unless bodies are kept, else the first entries up to the limit |
| `History.HistoryStore.ApplySettings` | cmd/clipboardnode-bridge/history_store.go:61-90 | dropping or truncating, and the file when the save succeeds |
| `History.HistoryStore.AppendActivity` | cmd/clipboardnode-bridge/history_store.go:92-123 | memory, file and answer after an activity, refused or stored |
| `History.HistoryStore.Promote` | cmd/clipboardnode-bridge/history_store.go:125-149 | memory, file and answer after a restore, with the error for an empty text |
| `History.HistoryStore.Clear` | cmd/clipboardnode-bridge/history_store.go:151-159 | memory is empty whatever the save does |
| `History.HistoryStore.PrependLocked` | cmd/clipboardnode-bridge/history_store.go:161-175 | the loop that tests the limit after appending keeps the new entry and the first others, at least one of them |
| `History.NormalizeLoadedHistory` | cmd/clipboardnode-bridge/history_store.go:220-235 | the loop keeps the first entry of each non-empty text, normalised |
| `History.NormalizeEntryNormal` | cmd/clipboardnode-bridge/history_store.go:237-259 | under a positive clock every stored entry is normal |
| `History.NormalEntriesStay` | cmd/clipboardnode-bridge/history_store.go:237-259 | a normal entry is left alone under any clock |
| `History.MruHolds` | cmd/clipboardnode-bridge/history_store.go:161-175 | the reference list holds each touched text once |
| `History.MruOrder` | cmd/clipboardnode-bridge/history_store.go:161-175 | and in the order of last touch |
| `History.PrependFollows` | cmd/clipboardnode-bridge/history_store.go:161-175 | cutting at every step loses nothing visible under the smallest limit so far |
| `HistoryLaws.HistoryIsMru` | cmd/clipboardnode-bridge/history_store.go:48-175 | in every run, saved or not, reopened or not, under changing settings, what is shown is the most-recently-used view of the touched texts |
| `HistoryLaws.FixedLimitIsMru` | cmd/clipboardnode-bridge/history_store.go:48-175 | with one configuration throughout, reopening included, cutting at each step never changes what is shown |
| `HistoryLaws.LimitOneStoresTwo` | cmd/clipboardnode-bridge/history_store.go:161-175 | with limit 1 the store keeps two entries |
| `HistoryLaws.OverLimitExactly` | cmd/clipboardnode-bridge/history_store.go:161-175 | a prepend stays within the limit if and only if the limit is at least 2 or no other text was there |
| `HistoryLaws.StoredBounded` | cmd/clipboardnode-bridge/history_store.go:61-175 | in every run, memory and file hold no more than the largest limit used, or two |
| `HistoryLaws.SwitchedOffExactly` | cmd/clipboardnode-bridge/history_store.go:61-77 | when bodies are no longer kept, memory is empty at once, and a reopened store is empty if and only if there was something to clear and the save succeeded, or the file held nothing |
| `HistoryLaws.ClearedTextComesBack` | cmd/clipboardnode-bridge/history_store.go:61-77 | a run in which a text comes back after retention was switched off |
| `HistoryLaws.ReloadIdentity` | cmd/clipboardnode-bridge/history_store.go:220-259 | reading back a normal list with distinct, non-empty texts is the identity |
| `HistoryLaws.ReopenYieldsLastSave` | cmd/clipboardnode-bridge/history_store.go:220-259 | in every run under positive clocks, reopening yields what was last saved, entry for entry |
| `HistoryFields.StoreAnswersExactly` | cmd/clipboardnode-bridge/history_store.go:61-175 | the answer of every operation and the file after it, each as an if-and-only-if: a failed save leaves the new memory and the old file |
| `HistoryFields.TouchStampsFirst` | cmd/clipboardnode-bridge/history_store.go:92-175 | an append or a restore puts an entry with its own fields, each given by the operation, in front and keeps the others as they were |
| `HistoryFields.StampedStays` | cmd/clipboardnode-bridge/history_store.go:220-259 | reading an entry back keeps every field its operation gave it |
| `HistoryFields.EntriesFromLastTouch` | cmd/clipboardnode-bridge/history_store.go:61-259 | in every run, saved or not, reopened or not, every entry in memory and in the file has each field that the last operation on its text gave it |
| `HistoryFields.ShownFromLastTouch` | cmd/clipboardnode-bridge/history_store.go:48-59 | so has every entry that is shown, under any configuration |
| `HistoryFields.LastTouchIs` | cmd/clipboardnode-bridge/history_store.go:161-175 | the last operation on a text is the one of the log with none after it on that text |
| `DartHistory.ParseClipboardHistoryEntries` | app/lib/core/bridge/engine_contract.dart:506-546 | the parser loop keeps the first item of each non-empty text until the limit |
| `DartHistory.KeptAll` | app/lib/core/bridge/engine_contract.dart:506-546 | parsing a list with distinct, non-empty texts within the limit drops nothing and keeps the order |
| `DartHistory.ParseShowsView` | app/lib/core/bridge/engine_contract.dart:506-546 | the parser applied to what the store makes visible shows the same texts, in every run |
| `DartHistory.KindsAgree` | app/lib/core/bridge/engine_contract.dart:548-560 | the two sides agree on which kinds of activity are kept |
| `DartHistory.ListIsMru` | app/lib/core/bridge/engine_contract.dart:496-599 | under one configuration the UI list is the most-recently-used view of the touch log, cut at the limit |
| `DartHistory.GoAndDartAgree` | app/lib/core/bridge/engine_contract.dart:496-599 | after any appends, restores of non-empty texts, settings, clears and reopenings under one configuration, the UI list and the store show the same texts |
| `DartHistory.AgreeExactly` | app/lib/core/bridge/engine_contract.dart:496-599 | over every run, however the settings change, the two agree at every point if and only if no empty text is restored and no settings come into force that bring a stored but hidden entry back into view |
| `DartHistory.OneConfigAgreesExactly` | app/lib/core/bridge/engine_contract.dart:496-599 | under one configuration the two agree at every point if and only if no empty text is restored |
| `DartHistory.ApplyAgreesExactly` | app/lib/core/bridge/engine_contract.dart:496-504 | new settings keep two equal lists equal if and only if the store reports an error or the settings before hid nothing that those after show |
| `DartHistory.RefreshAgrees` | app/lib/core/bridge/engine_contract.dart:506-546 | whatever happened before, and under any settings, the list the UI parses from what the store sends shows what the store shows |
| `DartHistory.RaisedLimitParts` | app/lib/core/bridge/engine_contract.dart:496-504 | a run in which a raised limit brings an entry back in the store and not in the list of the UI |
| `DartHistory.PromoteAgreesExactly` | app/lib/core/bridge/engine_contract.dart:578-599 | restoring an entry keeps equal lists equal if and only if its text is not empty |
| `DartFields.ParsedItemFields` | app/lib/core/bridge/engine_contract.dart:506-546 | a parsed item has each field it was sent with, and the stated one where it is missing |
| `DartFields.SentIsParsed` | app/lib/core/bridge/engine_contract.dart:506-546 | what the store sends is parsed with every field kept |
| `DartFields.ListFromLastTouch` | app/lib/core/bridge/engine_contract.dart:496-599 | over every run that follows the settings in force, every entry of the UI list has each field that the last operation on its text gave it, seen live or read back from the store |
| `Transport.Client.constructor` | core/myflowhub/client.go:107-108 | a login found on disk is never taken over |
| `Transport.Client.Connect` | core/myflowhub/client.go:111-147 | a changed endpoint closes the old session first; a failed connect changes nothing else |
| `Transport.Client.Register` | core/myflowhub/client.go:182-224 | identity, file and flag after a registration, sent or not |
| `Transport.Client.Login` | core/myflowhub/client.go:226-276 | identity, file and flag after a login, sent or not |
| `Transport.Client.EnsureIdentity` | core/myflowhub/client.go:149-180 | the order of clearing a stale identity, reusing, registering and logging in |
| `Transport.Client.ClearAuth` | core/myflowhub/client.go:423-431 | memory is cleared even if the file is not |
| `Transport.Client.Close` | core/myflowhub/client.go:433-456 | disconnected and logged out even if the file cannot be written |
| `Transport.IdentifiedHonest` | core/myflowhub/client.go:149-180 | a login is only ever sent with a node number granted to that very device, and memory and file keep to such pairs |
| `Transport.IdentifiedMeans` | core/myflowhub/client.go:149-180 | success means logged in as the device, by a login accepted during the call unless there was one before |
| `Transport.LoginMeantExactly` | core/myflowhub/client.go:149-180 | success comes from a login accepted during the call if and only if the client was not already marked as logged in for that device |
| `Transport.RegisterAloneLooksLoggedIn` | core/myflowhub/client.go:182-250 | the exception: a registration whose login cannot be signed, or loses its connection, leaves the flag, and the next attempt sends no login |
| `Transport.ConnectedExactly` | core/myflowhub/client.go:111-147 | a connection stands if and only if there is an address and it is reached; another address ends the login and keeps the identity |
| `Transport.IdentifiedExactly` | core/myflowhub/client.go:149-180 | an identity is established if and only if a stale one could be forgotten and the device is logged in, logs in with its node number, or registers and logs in |
| `Transport.SettledReplied` | core/myflowhub/client.go:546-559 | what is remembered of an accepted answer is its device, node, hub and trimmed role as a whole, and the file has it if it was saved |
| `Transport.RestartRemembers` | core/myflowhub/client.go:149-180 | a login that was saved is found again: after a restart the device logs in with the same node number and does not register |
| `Engine.Engine.Start` | core/engine/engine.go:98-153 | engine and client after a start, with the cleanup of every failure past the connect |
| `Engine.Engine.Stop` | core/engine/engine.go:155-195 | engine and client after a stop, whatever fails |
| `Engine.Engine.UpdateConfig` | core/engine/engine.go:197-236 | engine and client after a change, with and without a change of device |
| `Engine.RuntimeAnswers` | core/runtime/runtime.go:315-453 | which configuration the runtime may be left with, as the engine assumes |
| `Engine.StartEndsUpOrDown` | core/engine/engine.go:98-153 | a start from rest ends logged in as the configured device by a login accepted during the call, or down: disconnected and logged out |
| `Engine.StopEndsDown` | core/engine/engine.go:155-195 | after a stop the client is disconnected and logged out even if the runtime or the snapshot fails |
| `Engine.DeviceChangeExactly` | core/engine/engine.go:206-222 | a change of device takes effect if and only if the old session could be stopped and forgotten; then nothing of it is left |
| `Engine.IdentityInvariant` | core/engine/engine.go:98-236 | in every run of starts, stops, updates, lost sessions and restarts the engine is up or down; up means client, configuration and runtime agree on device and node, and device, node, hub and role are those of one answer of the hub |
| `Engine.EndpointFollowedExactly` | core/engine/engine.go:223-235 | a running engine is still connected to the configured hub after an update of the same device if and only if the address did not change |
| `Engine.EndpointGoesStale` | core/engine/engine.go:223-235 | a run into the other case |
| `Engine.InStepExactly` | core/engine/engine.go:155-236 | one step: engine and running runtime have the same configuration afterwards if and only if the step was no update that the runtime alone refused, and they had it before or the step settled it |
| `Engine.InStepOverRuns` | core/engine/engine.go:155-236 | over every run they have the same configuration unless the runtime alone refused an update and no later stop, restart or update settled it |
| `Engine.EngineRunsAhead` | core/engine/engine.go:223-235 | a run in which the engine shows a configuration its running runtime refused |
| `Engine.StartSucceedsExactly` | core/engine/engine.go:98-153 | a start from rest succeeds if and only if the hub is reached, the device is identified there with a node number, and the runtime starts |
| `Engine.UpdateAnswersExactly` | core/engine/engine.go:197-236 | the answer to an update and what it leaves, in each of its three branches |
| `ClipboardWatch.WatchText` | platform/clipboard_unix.go:114-162 | the poll loop reports a reading exactly when it differs from the latest one of its kind, after the baseline |
| `ClipboardWatch.ReportedTexts` | platform/clipboard_unix.go:124-158 | the reported texts are the texts read with runs of equal ones merged, without the first |
| `ClipboardWatch.NoRepeatedReport` | platform/clipboard_unix.go:150-156 | no two consecutive reports have the same text, so writes over the same text are reported at most once |
| `ClipboardWatch.EmptyReadingsAreSkipped` | platform/clipboard_unix.go:130-132 | an empty reading changes no later report, and does not repeat an error |

## Left out

- Interleaving inside a handler: each handler is one atomic step, so the window between the clipboard write and the grant of its token, and between check and write, is not covered; nor are context cancellation and the two-second wait of a stop.
- The status record (`Status.Pending*`, timestamps, last error) and the decision channel, on which decisions may be dropped; the log of the model holds every decision.
- `Sync.Decision`: a decision keeps the whole digest where the source shows its first twelve characters; errors are a flag, not a message.
- `Effects.Accepts`: the decoder is an input with two independent answers, so nothing is said about which malformed bytes `json.Unmarshal` takes; the concrete readers `Event.Decode` and `Manifests.DecodeManifest` take the encoder's own layout only, and no surrogate-pair escapes.
- `Network.NoSyncStorm`: counts events of the text kind; manifests are not echoed and not counted. Copies that are not valid UTF-8 and messages from outside the modelled nodes do not occur. Clipboards are not claimed to converge, since a remote apply does not touch the last local digest.
- `Network.Node`: when an echo is reported, if ever, is left to the run; how the Windows watcher finds its texts is not part of this model, though the law covers a watcher that reports every write.
- `Subscriptions.SubscriptionsBounded`: supposes that Unsubscribe works; so do `SubscriptionsExact` and the lemmas named after one call in that module. `HubFailures` drops the supposition.
- `World.Host.UnsubscribeTopics`: the client's Unsubscribe reports success without a call when logged out; the hub has forgotten the node's topics by then.
- `Sync.Created`: limits are non-negative; a negative limit is corrected to 1 by the set but not by the pending queue.
- `Sync.Ledger`: bookkeeping of the model for the conservation law, not a field of the source.
- `History.Reloaded`: a history file that cannot be read or decoded stops the bridge from starting and is not modelled; the JSON form of the entries is taken as faithful.
- `DartHistory.InForce`: settings come into force unless the history store reports an error; that the bridge then fails to save the configuration or to update the engine, and keeps the old one, is not modelled, nor are the moments between the two sides' handling of one operation.
- `DartHistory.ClipboardActivity`: without the title and the detail, which play no part in the history; an activity always comes with an identifier, as the bridge sends it.
- `DartHistory.Kept`: a field of the wrong JSON type throws in the parser; the items of the model have fields that are present or absent.
- `Transport.Hub`: the last action, message and time of the authentication state, keys, signatures and the wire exchange; each exchange is accepted or refused. Concurrent calls of Start are not covered.
- `Engine.Running`: the runtime inside the engine is the configuration it works with and the node it acts as; whether its own Start, Stop and UpdateConfig succeed is an input.
- `ClipboardWatch.WatchText`: the readings up to cancellation; a report cut off by the cancellation itself is not modelled.
- Writing of files (temporary file, permissions, rename): a save happens or it does not.
- The Flutter UI, the HTTP and stdio bridge, the mobile wrapper, the hub SDK, key generation and the Windows clipboard: no part of this model.
