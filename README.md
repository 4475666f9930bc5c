# Polar Bookshelf: mutation coordinator, event registry, URL predicates and precache globs

This project models four small pieces of the Polar Bookshelf web application
and proves properties of them in Dafny.

- **Mutation coordinator** (`web/js/datastore/DatastoreMutations.ts`). It is built on
  *latches*, one-shot cells that are pending, then fulfilled with a value or
  rejected with an error. A *mutation record* is a pair of latches: `written`
  and `committed`. The coordinator does four things:
  - `batched` joins a remote and a local record into a target record, two-of-two, per checkpoint;
  - `handle` settles both checkpoints of a record from one promise;
  - `pipe` forwards each checkpoint of one record to another through a converter;
  - `executeBatchedWrite` invokes `remoteSync`, starts `localSync` once the
    first remote checkpoint succeeds, and completes on the target checkpoint
    chosen by the consistency level (`'written'` or `'committed'`).

  Every `.then`/`.catch` callback is a reaction that runs when its input latch
  settles. The environment delivers settlement events in any order. The pure
  functions `BatchStep`/`BatchRun`, `Step`/`Run` and `PipeStep`/`PipeRun` give
  the state after each event. Invariants (`BatchInv`, `WriteInv`, `PipeInv`)
  are proved to hold after any sequence of events. The class `Latch` is
  settled in place; `Mutation` holds two of them. The methods of
  `DatastoreMutations` and `BatchedWrite` settle those latch objects in place
  and are proved to follow the pure functions.
- **Event registry** (`web/js/reactor/Reactor.ts`). This is the class `Reactor`,
  which maps event names to listener lists and keeps them in insertion order.
  Dispatch calls every listener in order and isolates a listener that throws.
- **URL predicates** (`web/js/util/URLs.ts`). These are `isWebScheme`, `isURL`,
  and the string assembly of `toBase`. They are related to a reference reading
  of a URL's scheme, and `toBase`'s output is proved to parse back into its parts.
- **Precache globs** (`sw-precache-config.js`). The two glob builders are loops
  that push one glob per extension. There is also the PDF.js list and the
  64-entry `staticFileGlobs` concatenation.

Modelling assumptions about files that are not part of this model:

- `web/js/util/Latch` is not part of this model. A latch is assumed to be settle-once:
  the first `resolve`/`reject` wins, and later ones do nothing.
- `web/js/datastore/DatastoreMutation` is not part of this model. A record is assumed to
  be a pair of latches, and `DefaultDatastoreMutation` a pair of fresh ones.
- `web/js/reactor/Event` is not part of this model. An event is assumed to be its
  listener list:
  - `registerListener` appends;
  - `removeListener` removes the first occurrence and reports whether there was one;
  - `getListeners` returns the list.
- `Strings.empty` is taken to mean "equal to the empty string".

Modelling choices:

- Listeners are identified by ids. What a listener does is reduced to whether
  it throws, which is the `throws` parameter of `DispatchEvent`.
- A converter either returns a value or throws. It is a function to `Outcome`,
  with `Rejected` standing for a throw.

A remote failure does not reach every target checkpoint. `batched` joins the
`committed` checkpoints only under `'committed'` (`DatastoreMutations.ts:83-85`),
so under `'written'` a failing remote record rejects the target's `written`
latch and leaves its `committed` latch pending (`RemoteFailureScenario`).

The default local record is created inside `executeBatchedWrite` and handed
only to `localSync` (`DatastoreMutations.ts:38-39, 50`), so an event settling
it is delivered only after `localSync` has been invoked.

## Model

| member | source | states |
|---|---|---|
| Latch.SettledIsFinal | web/js/datastore/DatastoreMutations.ts:104-106 | A settled latch is unchanged by any later sequence of resolve/reject attempts (the settle-once rule every callback relies on). |
| Latch.FirstSettlementWins | web/js/datastore/DatastoreMutations.ts:104-106 | A fresh latch given several attempts ends with the first attempted outcome, or stays pending if there were none. |
| Latch.Latch.Resolve | web/js/datastore/DatastoreMutations.ts:104 | Resolving settles a pending latch with the value and leaves a settled one as it was. |
| Latch.Latch.Reject | web/js/datastore/DatastoreMutations.ts:106 | Rejecting settles a pending latch with the error and leaves a settled one as it was. |
| DatastoreMutation.Mutation.constructor | web/js/datastore/DatastoreMutations.ts:38-39 | A default mutation record has two distinct, fresh, pending latches. |
| DatastoreMutations.BatchStepKeepsInv | web/js/datastore/DatastoreMutations.ts:96-108 | One settlement keeps the join rule on every wired checkpoint and keeps the unwired committed target untouched. |
| DatastoreMutations.BatchRunKeepsInv | web/js/datastore/DatastoreMutations.ts:77-108 | The join rule of `batched` holds after any sequence of settlements. |
| DatastoreMutations.JoinedCheckpoint | web/js/datastore/DatastoreMutations.ts:96-108 | For a joined checkpoint (always written; committed only under 'committed'), the target is fulfilled with v iff the remote input is fulfilled with v and the local input is fulfilled. Either input rejecting rejects the target, only with the error of a rejected input. The target is pending iff neither input rejected and not both fulfilled. |
| DatastoreMutations.WrittenLeavesCommitted | web/js/datastore/DatastoreMutations.ts:81-85 | Under 'written', `batched` never changes the target's committed latch. |
| DatastoreMutations.JoinFirstRejectionWins | web/js/datastore/DatastoreMutations.ts:101-107 | The first rejection to reach a pending joined target rejects it with that error. |
| DatastoreMutations.InitEstablishesInv | web/js/datastore/DatastoreMutations.ts:41-70 | The synchronous part of `executeBatchedWrite`, with fresh default records, establishes the write invariant. |
| DatastoreMutations.StepKeepsInv | web/js/datastore/DatastoreMutations.ts:41-70 | Every settlement event keeps the write invariant: join rule, sync invocations, race, and result settlement and error provenance. |
| DatastoreMutations.AwaitedEdge | web/js/datastore/DatastoreMutations.ts:58-70 | When the awaited target checkpoint settles in a step, it does so with the outcome of the triggering event. |
| DatastoreMutations.RunKeepsInv | web/js/datastore/DatastoreMutations.ts:41-70 | The write invariant holds after any sequence of events. |
| DatastoreMutations.RunAppend | web/js/datastore/DatastoreMutations.ts:41-70 | Running two event sequences one after the other is running their concatenation. |
| DatastoreMutations.StepExtends | web/js/datastore/DatastoreMutations.ts:41-70 | A step never changes a settled latch or promise, and only appends to the sync invocations. |
| DatastoreMutations.RunExtends | web/js/datastore/DatastoreMutations.ts:41-70 | The same holds for any sequence of events: only the first settlement of each latch is observable. |
| DatastoreMutations.RaceFollowsFirstRemote | web/js/datastore/DatastoreMutations.ts:46-47 | From a pending race, the race ends with the outcome of the first remote checkpoint settlement among the events. |
| DatastoreMutations.RaceIsFirstRemoteSettlement | web/js/datastore/DatastoreMutations.ts:46-54 | The race of a call is decided by whichever of the remote written/committed checkpoints settles first, with its outcome. |
| DatastoreMutations.SyncInvocations | web/js/datastore/DatastoreMutations.ts:43-53 | `remoteSync` is invoked exactly once and first. `localSync` is invoked at most once, after it, and exactly when the first remote checkpoint to settle is fulfilled. |
| DatastoreMutations.FulfilmentNeedsLocalSync | web/js/datastore/DatastoreMutations.ts:38-70 | The local record settles only after `localSync` is invoked. So a joined target checkpoint that was pending at the start is fulfilled only if `localSync` ran, and so is a call whose awaited checkpoint was pending at the start. |
| DatastoreMutations.FirstRemoteRejectionFailsWrite | web/js/datastore/DatastoreMutations.ts:46-54 | If the first remote settlement is a rejection with e while the call is pending, the call rejects with e and `localSync` is never invoked, whatever follows. |
| DatastoreMutations.ResultTakesTriggeringOutcome | web/js/datastore/DatastoreMutations.ts:43-70 | When the returned promise settles, it settles with the outcome of the event that triggered it, so only the first error is observable. |
| DatastoreMutations.ResultFollowsAwaitedCheckpoint | web/js/datastore/DatastoreMutations.ts:43-70 | The call waits on target.committed under 'committed' and on target.written otherwise. It is fulfilled only if that latch is. It settles iff that latch settles, the race rejects, or a sync promise rejects. A rejection carries one of those errors. |
| DatastoreMutations.WriteTargetIsJoined | web/js/datastore/DatastoreMutations.ts:56-85 | The target of a call obeys the join rule on written always and on committed under 'committed'. Under 'written', its committed latch is never touched. |
| DatastoreMutations.WrittenScenario | web/js/datastore/DatastoreMutations.ts:41-70 | Under 'written', remote then local written successes fulfil the call, invoke both sync procedures, and leave the target committed pending after remote commits. |
| DatastoreMutations.RemoteFailureScenario | web/js/datastore/DatastoreMutations.ts:43-85 | `remoteSync` failing, then the remote checkpoints failing, rejects the call with that error without invoking `localSync`. Only the joined target checkpoints reject. |
| DatastoreMutations.HandleSettlesBothAlike | web/js/datastore/DatastoreMutations.ts:115-137 | `handle` on a pending target settles written and committed identically: both with converter(v) on success, or both with the source error on failure. A throwing converter leaves both pending and nothing escapes. |
| DatastoreMutations.PipeRunKeepsInv | web/js/datastore/DatastoreMutations.ts:144-161 | The mirror relation of `pipe` holds after any sequence of source settlements. |
| DatastoreMutations.PipeMirrorsSource | web/js/datastore/DatastoreMutations.ts:144-161 | Each target checkpoint independently mirrors the matching source checkpoint: a value v becomes converter(v), and a rejection or a converter throw becomes a rejection. A target checkpoint settled beforehand keeps its outcome. |
| DatastoreMutations.HandleVersusPipe | web/js/datastore/DatastoreMutations.ts:115-161 | `handle` and `pipe` agree on a source outcome unless the converter throws. Then `handle` leaves both checkpoints pending and `pipe` rejects both. |
| DatastoreMutations.JoinSettled | web/js/datastore/DatastoreMutations.ts:101-107 | The batchPromises callbacks settle the target latch object as the join reaction prescribes. |
| DatastoreMutations.DatastoreMutations.Create | web/js/datastore/DatastoreMutations.ts:9-15 | The coordinator keeps the consistency level it was created with. |
| DatastoreMutations.DatastoreMutations.ExecuteBatchedWrite | web/js/datastore/DatastoreMutations.ts:35-74 | Starts a call with fresh remote and local records whose state is exactly `Init` of the target's state. |
| DatastoreMutations.DatastoreMutations.HandleSettled | web/js/datastore/DatastoreMutations.ts:115-137 | Settles the target's latch objects exactly as `HandleReaction` prescribes. |
| DatastoreMutations.DatastoreMutations.PipeLatchSettled | web/js/datastore/DatastoreMutations.ts:153-161 | Settles the target latch object exactly as `PipeLatchReaction` prescribes. |
| DatastoreMutations.BatchedWrite.constructor | web/js/datastore/DatastoreMutations.ts:38-70 | The call's objects start in state `Init`, with six distinct latches. |
| DatastoreMutations.BatchedWrite.SettleCheckpoint | web/js/datastore/DatastoreMutations.ts:46-108 | Settling a record checkpoint in place, and running the callbacks waiting on it, changes the call's state exactly as `Step` does. A local checkpoint is not settled before `localSync` is invoked. |
| DatastoreMutations.BatchedWrite.SettleSync | web/js/datastore/DatastoreMutations.ts:43-51 | A sync promise settling changes the call's state exactly as `Step` does. |
| Reactor.ThrowingListenersAreLogged | web/js/reactor/Reactor.ts:56-66 | A listener is logged by a dispatch iff it is in the event's list and throws. |
| Reactor.IndexOf | web/js/reactor/Reactor.ts:95 | The first occurrence of a listener in a list, or the list's length if it is absent. |
| Reactor.RemoveListener | web/js/reactor/Reactor.ts:95 | Removal reports true iff the listener was present. Then its first occurrence is removed and the other listeners keep their order; otherwise the list is unchanged. |
| Reactor.RemoveUndoesRegister | web/js/reactor/Reactor.ts:87-95 | Removing a listener just added, and not present before, restores the list. |
| Reactor.Reactor.constructor | web/js/reactor/Reactor.ts:10 | A new registry has no events. |
| Reactor.Reactor.RegisterEvent | web/js/reactor/Reactor.ts:12-27 | A registered name keeps its listeners and nothing changes. A new name is added last with an empty list. |
| Reactor.Reactor.EventNames | web/js/reactor/Reactor.ts:29-31 | Every registered name, each once, in registration order. |
| Reactor.Reactor.ClearEvent | web/js/reactor/Reactor.ts:33-38 | The name ends up registered with no listeners, whether or not it was before, and no other event changes. |
| Reactor.Reactor.DispatchEvent | web/js/reactor/Reactor.ts:46-70 | An unregistered name throws "No events for event name". Otherwise every listener is called with the value, in list order, and exactly the throwing ones are logged. |
| Reactor.Reactor.AddEventListener | web/js/reactor/Reactor.ts:75-90 | A non-function listener, checked first, throws and changes nothing; so does an unregistered name. Otherwise the listener is appended to that event only. |
| Reactor.Reactor.RemoveEventListener | web/js/reactor/Reactor.ts:92-100 | Returns false for an unregistered name. Otherwise it returns what the event's removal reports, as its list is updated. |
| Reactor.Reactor.GetEventListeners | web/js/reactor/Reactor.ts:122-126 | Returns the listener list of a registered name. An unregistered name fails, as reading `getListeners` of `undefined` does. |
| URLs.SchemeOfPrefixed | web/js/util/URLs.ts:63-66 | A string `scheme:rest` has scheme `scheme` when `scheme` holds no ':'. |
| URLs.PrefixFixesScheme | web/js/util/URLs.ts:63-66 | A string starting with `scheme:` has that scheme. |
| URLs.SchemeGivesPrefix | web/js/util/URLs.ts:63-66 | A string with a given scheme starts with `scheme:`. |
| URLs.WebSchemeIffHttpScheme | web/js/util/URLs.ts:28-32 | `isWebScheme` holds exactly for strings whose scheme is http or https. |
| URLs.URLIffKnownScheme | web/js/util/URLs.ts:57-67 | `isURL` of a present string holds exactly when its scheme is file, blob, http or https. |
| URLs.WebSchemeIsURL | web/js/util/URLs.ts:28-67 | Every web-scheme string is a URL. |
| URLs.FileAndBlobAreNotWebSchemes | web/js/util/URLs.ts:28-67 | `file:` and `blob:` strings are URLs but not web schemes. |
| URLs.IndexOfAbsent | web/js/util/URLs.ts:44-46 | A character not in a string is found at the string's length. |
| URLs.IndexOfFirst | web/js/util/URLs.ts:44-46 | The first occurrence of a character is found before anything that follows it. |
| URLs.ToBaseRoundTrip | web/js/util/URLs.ts:42-46 | The output of `toBase` parses back into exactly the protocol, hostname and optional port it was built from. |
| URLs.ToBaseKeepsWebScheme | web/js/util/URLs.ts:28-46 | For any hostname and port, IPv6 literals included, the output of `toBase` is a web scheme iff the protocol is `http:` or `https:`. |
| PrecacheConfig.GlobsForShape | sw-precache-config.js:2-29 | The reference list has one glob per extension, in order, and each equals `path + "/**/*." + ext`. |
| PrecacheConfig.GlobInjective | sw-precache-config.js:9-24 | Every glob starts with `path/`, and for one path distinct extensions give distinct globs. |
| PrecacheConfig.GlobsForDistinct | sw-precache-config.js:9-24 | Distinct extensions give a list of distinct globs, all under `path/`. |
| PrecacheConfig.PushGlobs | sw-precache-config.js:6-27 | The push loop returns one glob per extension, in order, equal to the reference list. |
| PrecacheConfig.CreateCommonGlobsForStaticAssetsAtPath | sw-precache-config.js:2-14 | Six distinct globs under `path/`, for css, html, png, svg, ico and woff2 in that order. |
| PrecacheConfig.CreateCommonGlobsForPath | sw-precache-config.js:17-29 | Seven distinct globs under `path/`, for css, js, html, png, svg, ico and woff2 in that order. |
| PrecacheConfig.StaticAssetsAreThePathListWithoutJs | sw-precache-config.js:4-19 | The static-assets list is the path list with its `js` entry (index 1) removed, and it holds no `*.js` glob. |
| PrecacheConfig.CreatePDFJSGlobs | sw-precache-config.js:31-45 | The six fixed PDF.js entries, then the seven globs for `pdfviewer/web/images`: 13 in all. |
| PrecacheConfig.StaticFileGlobs | sw-precache-config.js:47-77 | The generated lists in source order, then the 17 literal entries: 64 entries. |

## Left out

- Scheduling and timing: every promise callback runs as soon as its input
  settles, and job-queue delays between callbacks are not modelled. Settlement
  order is an arbitrary sequence of events, not timed.
- DatastoreMutations.DatastoreMutations.ExecuteBatchedWrite: only the default fresh remote and local records are modelled, not records supplied by the caller. The two sync procedures are the environment that delivers settlement events, so a `remoteSync` that throws synchronously instead of returning a rejected promise is not modelled.
- DatastoreMutations.BatchedWrite.Valid requires the six latches of the three records to be distinct. A call whose target shares a latch with the fresh records cannot happen with default records, and aliasing is not modelled.
- DatastoreMutations.DatastoreMutations.HandleSettled: the converter is a pure function, so calling it twice gives the same result. An impure converter that succeeds once and then throws is not modelled.
- Logging (`console.error`, `log.error`) and `Preconditions.assertNotNull`. A name is a `string`, so null names do not arise.
- `Reactor.once`: its behaviour depends on whether `Event.getListeners` returns a copy, and `web/js/reactor/Event` is not part of this model.
- Reactor.Reactor.EventNames: `Object.keys` lists integer-like keys first in numeric order; the model keeps plain insertion order. Names that collide with `Object.prototype` members (such as `constructor`) are not modelled.
- `URLs.toBuffer` and `URLs.toBlob` (network I/O via `fetch`), `URLs.absolute`, and the parsing step of `toBase`, which belong to the WHATWG `URL` class.
- URLs.ToBaseRoundTrip requires hostname and port without ':'. An IPv6 hostname is not modelled.
- `sw-precache-config.js`: the `module.exports` options (`root`, `stripPrefix`, `maximumFileSizeToCacheInBytes`) and the `console.log` of the glob list.
