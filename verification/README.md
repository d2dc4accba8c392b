# Verified models of Pages publishing, the query coordinator and the messaging gateway

This project models the parts of the repository whose correctness depends on interleaving, aliasing,
re-entry or text boundaries, and proves what they promise for every input, every run or every reachable
state. `dafny verify dfyconfig.toml` checks all of it.

| Component | Files |
|---|---|
| Pages publication protocol: requests that share an object store with a compare-and-swap manifest | `PagesProtocol`, `PagesInvariant`, `PagesPreservation`, `PagesSafety`, `PagesAnswers` (what answers mean, in every interleaving), `PagesService` (what a request achieves when nothing goes wrong) |
| Ephemeral query coordinator: deadlines, cancellation, resources, re-entrant callbacks | `EphemeralQueries` (what it does, on values), `EphemeralQueryRuns` (what every history keeps), `EphemeralQueryTraces` (that nothing passed in is dropped), `EphemeralQueryCoordinator` (the classes, updated in place) |
| Base64url tokens and password tickets | `Base64Url`, `Tickets` |
| Pending senders, pairing codes, topic cache, permission prompts | `PendingSenders`, `PairingThrottle`, `Pairing`, `PairingRuns`, `TopicRegistry`, `TopicRuns`, `PermissionPrompts` |
| Workspace access: config, bindings, lock-down | `AccessPolicy`, `BindingStore`, `AccessLockdown`; `Messaging` holds what the gateway's files share |
| Message splitter, NDJSON framing, Markdown comment stripper | `MessageSplitter`, `NdjsonFraming`, `MarkdownComments`, with `JsText` and `Sequences` for the string operations |
| Dependency-tree copy of the server build | `DependencyTree` |

Code that updates state in place is a class whose methods are proved equal to a function on values; the
promises are then proved about that function over all runs. Code that runs concurrently is a state
machine: one step per store call (Pages), per stretch between two awaits (topics, prompts), or per
operation with the operations its callbacks perform (queries).

## Where code and documentation disagree

The model follows the code. Each point is a lemma below.

- Retention (`workers/pages/index.js:329-334`, `403-408`): the comments say the manifest's deadline never
  leads an object's. The anchor is read after the objects were put again, so it can lead by up to the
  length of that request: `ShellOutlivesContentIff`, `GapIsBoundedByTheRequest`, `ShellCanOutliveContent`.
- Pairing (`packages/messaging-gateway/src/pairing.ts:45-50`): the comment counts 25 tries in five
  minutes. A fixed window admits 29, and no more: `TwentyNineTriesPerCode`.
- Pending senders (`packages/messaging-gateway/src/pending-senders.ts:88-94`): rows are said to be keyed
  by sender, reason and binding. An empty binding id is looked up as itself and stored as absent, so it
  leaves two rows with one key: `HoldsThroughoutIff`, `KeepsKeysUniqueIff`, `EmptyBindingDuplicates`.
- Sender counters (`packages/messaging-gateway/src/pairing.ts:139-146`): the comment says the scope keeps workspaces
  apart. Ids that hold a colon can run into each other: `WorkspacesShareIff`.
- Lock-down (`packages/messaging-gateway/src/registry.ts:1311-1315`): an open binding whose id another binding had
  first stays open, because updates go by id: `LockDownLocksIff`.
- Open bindings (`packages/messaging-gateway/src/types.ts:317-321`): a binding created with a config that
  names no access mode is open, also in a locked workspace. No caller does that today; `StaysLockedIff`
  says exactly which calls open a locked workspace.
- Allowing a pending sender (`packages/messaging-gateway/src/registry.ts:1414-1422`): a binding that has
  gone back to inheriting is switched to its list and turns the owners away: `AllowKeepsOthersIff`.
- Permission buttons (`packages/messaging-gateway/src/gateway.ts:518-520`): a request id with a colon is
  cut at it, so its button names another request: `ButtonNamesItsRequestIff`, `ColonNamesAnother`.

## Model

| member | source | states |
|---|---|---|
| PagesSafety.EventKeeps | workers/pages/index.js:311-501 | Every step of every request, of the clock and of the lifecycle rule, which takes old manifests as well as old objects, keeps the protocol invariant and only moves the store forward. |
| PagesPreservation.JobStepKeeps | workers/pages/index.js:311-501 | One store call of one request, succeeding, refused or failing, keeps the store's invariant and that request's own. |
| PagesInvariant.Stable | workers/pages/index.js:311-501 | What a request relies on between two of its calls survives every step the others can take. |
| PagesSafety.ReachedInv | workers/pages/index.js:311-501 | The invariant holds after every interleaving of create, update, password-change and unpublish requests with lifecycle deletions under every key. |
| PagesSafety.PublishedPageIsWhole | workers/pages/index.js:311-318 | In every reachable state a stored manifest that is published came from one upload, and each object it needs exists with that upload's bytes unless the lifecycle rule deleted it. |
| PagesSafety.NoTornRead | workers/pages/index.js:602-618 | A reader that loads a manifest and fetches an object any number of steps later gets nothing or the bytes uploaded with that manifest. |
| PagesSafety.CommitsAreSequential | workers/pages/index.js:142-149 | Every manifest is what the committed edits give when applied one after another, unless it is older than the lifecycle rule allows and gone; each edit replaced exactly the record its request was authorised against, on the page the request named (for a creation, drew), with that page's admin token, and is the change that request asked for; a bundle's revision was drawn by that request for its own upload. |
| PagesAnswers.AnswersMatchCommits | workers/pages/index.js:287-501 | In every interleaving, a finished request answers an error exactly when one of its own calls went wrong in the way that error stands for: 401 and 404 by what the store held when it loaded the manifest, 409 by a refused conditional put (for an unpublish the third, or a tombstone gone when read back), 500 and 503 by a call that failed or, for a password change, a missing object. A 200 or 201 means exactly that request's change was committed, on its own page and with its own upload; an unpublish answered 200 has the tombstone as the page's last record. An error means nothing was committed, except that an unpublish answered 500 may have committed its tombstone, and one answered 409 nothing or a tombstone that the lifecycle rule has since deleted. |
| PagesAnswers.ThreeAttempts | workers/pages/index.js:477-495 | An unpublish gives up at its third refused tombstone and not before, and loads the manifest again for each attempt. |
| PagesAnswers.CleanupNotesAreHonest | workers/pages/index.js:451-475 | A committed clean-up note says complete exactly when neither the listing nor a delete of its sweep failed, however requests interleave. |
| PagesService.RequestsAreServed | workers/pages/index.js:361-501 | From every reachable state, each schedule of a new request's own calls that all succeed can only end with the answer the page calls for, and with exactly the effect asked for: the upload published under a fresh page; the new content under a fresh revision with the old password and the superseded objects gone; the new password with every object put again and the anchor renewed; or a tombstone with no object left and its clean-up noted complete. No other page or object changes. |
| PagesService.RequestsCanEnd | workers/pages/index.js:361-501 | Such a schedule exists for every request in every reachable state. |
| PagesService.FailedBundlesLeaveNothing | workers/pages/index.js:383-435 | A creation or content update whose puts fail at any point either has its full effect or leaves every page and object as before, when its deletes work. |
| PagesService.ServedUntilDeadline | workers/pages/index.js:558-585 | Left alone, a published page is served with its manifest for exactly its retention period, whatever the lifecycle rule deletes. |
| PagesSafety.BothChangesSurvive | workers/pages/index.js:401-438 | A stored manifest always has the password of the last committed password change and the content of the last committed content change, in whatever order they committed. |
| PagesSafety.ReplayKeepsBoth | workers/pages/index.js:401-438 | A content edit keeps the password and a password edit keeps revision and manifest, over any log of edits. |
| PagesSafety.RevisionNeverReturns | workers/pages/index.js:441-449 | A revision that stopped being live, because it was superseded or its manifest went, is not live in any later state. |
| PagesSafety.UnpublishIsPermanent | workers/pages/index.js:477-501 | Once the last record of a page is a tombstone, every later state has that tombstone or no manifest, no later step publishes the page again, and the public loader answers nothing for it. |
| PagesSafety.GoneStaysGone | workers/pages/index.js:142-149 | A manifest that is gone does not come back: every later write is conditional on the record it replaces. |
| PagesSafety.ManifestLapseIsInvisible | workers/pages/index.js:558-585 | The lifecycle rule takes a manifest only after its page stopped being served, so a deletion changes no public answer. |
| PagesSafety.AnchorNeverDecreases | workers/pages/index.js:411-427 | Between any two states in which a page has a manifest its retention anchor does not decrease. |
| PagesSafety.ObjectsAreAsYoungAsTheAnchor | workers/pages/index.js:336-427 | After a creation or content update every retained object is at least as young as the anchor; after a password change at least as young as the start of that request. |
| PagesSafety.ShellOutlivesContentIff | workers/pages/index.js:558-585 | Left alone, a served page can come to miss an object exactly when its anchor is later than the last upload of an object it needs. |
| PagesSafety.GapIsBoundedByTheRequest | workers/pages/index.js:403-415 | A served page that misses an object had its anchor set by a password change, and the gap is no longer than that request took. |
| PagesSafety.GapNeedsLead | workers/pages/index.js:558-585 | Without such a lead the page stops being served no later than its objects go. |
| PagesSafety.LeadOpensGap | workers/pages/index.js:558-585 | With such a lead, waiting and one lifecycle deletion leave a served page without its object. |
| PagesSafety.AnchorCanLead | workers/pages/index.js:411-415 | A concrete run in which the anchor is later than an object's upload. |
| PagesSafety.ShellCanOutliveContent | workers/pages/index.js:329-334 | Some run serves a page whose content is gone. |
| EphemeralQueries.Exec | packages/pi-agent-server/src/ephemeral-query-lifecycle.ts:62-162 | One operation, with everything its callbacks do, only adds runs, keeps every run's id and its cancellation, and leaves no registration dangling. |
| EphemeralQueries.ExecKeeps | packages/pi-agent-server/src/ephemeral-query-lifecycle.ts:62-162 | Every operation keeps the registry invariant, with any operations performed by its callbacks, and takes back no outcome, reason or release. |
| EphemeralQueries.ExecReleases | packages/pi-agent-server/src/ephemeral-query-lifecycle.ts:147-162 | Whatever an operation adds to the history, each resource it takes is then aborted and disposed of, and nothing is registered for a run cancelled before. |
| EphemeralQueryRuns.RegistryIsExact | packages/pi-agent-server/src/ephemeral-query-lifecycle.ts:84-139 | After any history, the registry holds exactly the runs neither cancelled nor finished, and a timer is armed exactly for those. |
| EphemeralQueryRuns.OwnRunOnly | packages/pi-agent-server/src/ephemeral-query-lifecycle.ts:115-122 | A late settlement or finally block leaves every other run, also one that reused the id, registered as it was. |
| EphemeralQueryRuns.StartRegistersIff | packages/pi-agent-server/src/ephemeral-query-lifecycle.ts:62-87 | After any history, run() starts a query exactly when its id has no run neither cancelled nor finished and the timeout is positive; it then registers one new armed run with that timeout and touches no other, and otherwise changes nothing. |
| EphemeralQueryRuns.SetResourceRegisters | packages/pi-agent-server/src/ephemeral-query-lifecycle.ts:96-107 | On a run that is not cancelled setResource registers exactly this resource and touches nothing else; clearResource forgets it only when it is the registered one. |
| EphemeralQueryRuns.FinishUnregisters | packages/pi-agent-server/src/ephemeral-query-lifecycle.ts:115-122 | The finally block leaves the run finished, disarmed and unregistered, so its id can be used again, and keeps how it settled. |
| EphemeralQueryTraces.NothingIsDropped | packages/pi-agent-server/src/ephemeral-query-lifecycle.ts:62-162 | Every settlement, resource and clearing that an operation passes in, at any depth of callbacks, is in the history where it was performed, and the history holds no other. |
| EphemeralQueryTraces.PassedResourceIsReleased | packages/pi-agent-server/src/ephemeral-query-lifecycle.ts:96-162 | A resource passed to a live run, by a caller or any callback, is aborted and then disposed of once the run is cancelled, unless a later operation replaced or cleared it. |
| EphemeralQueries.FireCancelsItsRun | packages/pi-agent-server/src/ephemeral-query-lifecycle.ts:85-87 | An armed timer belongs to the run registered under its id, so it cancels that run and no later one. |
| EphemeralQueryRuns.NoResourceStaysLive | packages/pi-agent-server/src/ephemeral-query-lifecycle.ts:125-162 | Once a run is cancelled it holds no resource, and each resource it ever registered was replaced by another registration, cleared by the task, or taken, and then aborted and disposed of, also when callbacks re-enter. |
| EphemeralQueryRuns.HeldResourceIsReleased | packages/pi-agent-server/src/ephemeral-query-lifecycle.ts:125-162 | The resource registered when cancel(id) is called is taken, aborted and disposed of before it returns, unless a callback clears it first, whatever other resources callbacks pass in; nothing is registered for the run from there on. |
| EphemeralQueryRuns.LateResourceIsTaken | packages/pi-agent-server/src/ephemeral-query-lifecycle.ts:96-100 | A resource registered after the cancellation is taken at once, aborted and disposed of, and not kept. |
| EphemeralQueryRuns.SettlesOnce | packages/pi-agent-server/src/ephemeral-query-lifecycle.ts:110-137 | A run settles once, with the first result its task settled with or its own cancellation reason; a cancelled run is settled, and a run still open has a task that has not settled. |
| EphemeralQueryRuns.CancelCancels | packages/pi-agent-server/src/ephemeral-query-lifecycle.ts:125-139 | cancel(id) leaves the run it found cancelled for that reason, settled, without resource or timer, and unregistered, however callbacks re-enter. |
| EphemeralQueryRuns.CancelAllCancels | packages/pi-agent-server/src/ephemeral-query-lifecycle.ts:141-145 | cancelAll leaves no run that was registered when it was called active, even when callbacks start and cancel others. |
| EphemeralQueryCoordinator.QueryEntry.Settle | packages/pi-agent-server/src/ephemeral-query-lifecycle.ts:76-83 | Settling the promise of a run: the first settlement stays. |
| EphemeralQueryCoordinator.QueryEntry.Abort | packages/pi-agent-server/src/ephemeral-query-lifecycle.ts:131-132 | Cancelling clears the entry's timer and aborts its signal with the reason, and touches nothing else of it. |
| EphemeralQueryCoordinator.QueryCoordinator.Run | packages/pi-agent-server/src/ephemeral-query-lifecycle.ts:62-108 | Start refuses an active id or a bad timeout and changes nothing; otherwise it registers one fresh entry under the id, armed, with that timeout. |
| EphemeralQueryCoordinator.QueryCoordinator.FinishRun | packages/pi-agent-server/src/ephemeral-query-lifecycle.ts:115-122 | The finally block runs once per settled run, and removes and disarms its own registration only. |
| EphemeralQueryCoordinator.QueryCoordinator.UnregisterRun | packages/pi-agent-server/src/ephemeral-query-lifecycle.ts:118-121 | The entry under the id is removed only when it is this run's own object. |
| EphemeralQueryCoordinator.QueryCoordinator.SettleRun | packages/pi-agent-server/src/ephemeral-query-lifecycle.ts:110-114 | A task that settles, in time or late, touches its own run only. |
| EphemeralQueryCoordinator.QueryCoordinator.Set | packages/pi-agent-server/src/ephemeral-query-lifecycle.ts:96-102 | setResource stores the resource in the run's own entry and touches no other, or releases it when the run was cancelled. |
| EphemeralQueryCoordinator.QueryCoordinator.Clear | packages/pi-agent-server/src/ephemeral-query-lifecycle.ts:103-107 | clearResource forgets the resource only if it is the registered one. |
| EphemeralQueryCoordinator.QueryCoordinator.Release | packages/pi-agent-server/src/ephemeral-query-lifecycle.ts:147-162 | cancelResource aborts and then disposes, with the callbacks' operations in between. |
| EphemeralQueryCoordinator.QueryCoordinator.CancelId | packages/pi-agent-server/src/ephemeral-query-lifecycle.ts:125-139 | cancel on the aliased entry objects equals the specification, re-entry included, and returns whether the id was active. |
| EphemeralQueryCoordinator.QueryCoordinator.FireTimer | packages/pi-agent-server/src/ephemeral-query-lifecycle.ts:85-87 | A timer that is still armed is spent and cancels the run under its id with the timeout reason; a cleared one does nothing. |
| EphemeralQueryCoordinator.QueryCoordinator.Perform | packages/pi-agent-server/src/ephemeral-query-lifecycle.ts:62-162 | Every operation on the objects, nested through callbacks to any depth, does what Exec says. |
| Base64Url.DecodesWhatWasEncoded | workers/pages/index.js:41-51 | base64urlBytes undoes base64url for every byte sequence (RFC 4648, section 5). |
| Base64Url.EncodedInjective | workers/pages/index.js:41-45 | Different bytes have different encodings. |
| Base64Url.EncodedAlphabet | workers/pages/index.js:10-45 | Encodings use the url-safe alphabet only. |
| Base64Url.TokenIsPageId | workers/pages/index.js:10-45 | A random token is a page id exactly when it has 16 bytes. |
| Base64Url.Base64UrlOf | workers/pages/index.js:41-45 | The accumulating loop, btoa and the three replacements give the encoding proved invertible. |
| Base64Url.TimingSafeEqual | workers/pages/index.js:62-67 | The comparison that visits every character decides equality. |
| Tickets.IssuedTicketAcceptedIff | workers/pages/index.js:268-285 | A ticket issued for a page and password version is accepted exactly on an unprotected page, or with the same id and version before it expires. |
| Tickets.AcceptedTicketIsSigned | workers/pages/index.js:273-285 | A ticket accepted on a protected page carries the signature of a payload that names that page, its current version and a later time. |
| Tickets.HasValidTicket | workers/pages/index.js:273-285 | Splitting, comparing the signature with the non-short-circuit loop and reading the payload decide exactly acceptance. |
| DependencyTree.Copier.CopyDependencyTree | scripts/build-server.ts:257-291 | On any graph, cycles and missing packages included, one call ends, marks the package, visits only what it reaches, and leaves nothing visited with an unvisited dependency. |
| DependencyTree.Copier.CopyAll | scripts/build-server.ts:284-286 | The loop over dependencies visits them all and only what they need. |
| DependencyTree.Copier.CopyRoots | scripts/build-server.ts:373-376 | From an empty visited set, exactly the existing packages reachable through existing packages are copied, each once. |
| DependencyTree.VisitedIsClosure | scripts/build-server.ts:257-291 | A visited set that is closed and needed holds exactly the reachable existing packages. |
| DependencyTree.ClosureIsLeast | scripts/build-server.ts:373-376 | What is copied is the least set with the existing roots and the existing dependencies of its members, so root order and repetition do not matter. |
| MessageSplitter.SplitText | packages/messaging-gateway/src/renderer.ts:850-869 | The loop ends for every text and limit from one on, and gives the specified chunks. |
| MessageSplitter.SendText | packages/messaging-gateway/src/renderer.ts:797-814 | A text that fits is posted as it is, a longer one as its chunks in order. |
| MessageSplitter.ChunksFit | packages/messaging-gateway/src/renderer.ts:797-869 | No chunk, and no posted message, exceeds the limit. |
| MessageSplitter.ChunksPreserveText | packages/messaging-gateway/src/renderer.ts:850-869 | The text is the chunks in order with nothing but white space around them. |
| MessageSplitter.ChunksNonEmptyIff | packages/messaging-gateway/src/renderer.ts:860-866 | A chunk is empty exactly when the text is too long and the part before its first cut is blank. |
| MessageSplitter.ChunksNonEmpty | packages/messaging-gateway/src/renderer.ts:860-866 | Without leading white space no chunk is empty. |
| MessageSplitter.CutsAtBreaks | packages/messaging-gateway/src/renderer.ts:855-858 | A cut falls on the last paragraph break within the limit; without one on the last line break, without one of those on the last blank, and without any of them at the limit. |
| NdjsonFraming.ParseFrames | packages/messaging-whatsapp-worker/src/protocol.ts:195-212 | The loop takes each complete line once, skips blank and malformed ones, and returns the tail. |
| NdjsonFraming.ParseLine | packages/messaging-whatsapp-worker/src/protocol.ts:201-209 | A trimmed line gives one message, or none when it is blank or does not parse. |
| NdjsonFraming.CutAnywhere | packages/messaging-whatsapp-worker/src/protocol.ts:191-212 | Parsing a prefix and then its rest with the remainder equals parsing the whole. |
| NdjsonFraming.ChunkingDoesNotMatter | packages/messaging-whatsapp-worker/src/protocol.ts:191-212 | Every way of cutting a stream gives the same messages and the same final rest. |
| NdjsonFraming.FramesOfEncoded | packages/messaging-whatsapp-worker/src/protocol.ts:187-212 | Parsing the concatenated encodings gives the messages back with an empty rest. |
| NdjsonFraming.SentIsReceived | packages/messaging-whatsapp-worker/src/protocol.ts:187-212 | Whatever is sent and however it is cut, exactly those messages arrive. |
| MarkdownComments.StripMarkdownComments | scripts/check-branding.ts:245-269 | The map over lines with its shared open flag strips each line from the state the line before left, keeping their number. |
| MarkdownComments.StripLine | scripts/check-branding.ts:247-267 | The offset-driven scan of one line gives its visible text and whether a comment stays open. |
| MarkdownComments.LinesAgree | scripts/check-branding.ts:245-269 | From either open state, the stripped lines joined are what the automaton keeps of the joined text. |
| MarkdownComments.StrippingIsTheAutomaton | scripts/check-branding.ts:245-269 | Line-by-line stripping equals a one-character-at-a-time comment automaton over the whole text, newlines kept. |
| PendingSenders.PendingSendersStore.RecordRejection | packages/messaging-gateway/src/pending-senders.ts:98-152 | Recording expires old rows, merges and moves the found row to the front, or inserts one and drops the 51st, and returns the row in front. |
| PendingSenders.PendingSendersStore.Dismiss | packages/messaging-gateway/src/pending-senders.ts:164-179 | The sender's rows go, narrowed by reason and binding when given; tells whether any did. |
| PendingSenders.PendingSendersStore.List | packages/messaging-gateway/src/pending-senders.ts:75-81 | The rows less than seven days old of the platform asked for, each as often as it is stored, newest first; on the store's own order the sort moves nothing. |
| PendingSenders.PendingSendersStore.EvictExpired | packages/messaging-gateway/src/pending-senders.ts:194-201 | Rows older than seven days go, the others stay in order. |
| PendingSenders.StoreHoldsTheMostRecent | packages/messaging-gateway/src/pending-senders.ts:98-152 | After any run of rejections none of which shadows a row, the store holds exactly the first 50 distinct keys read from newest to oldest within seven days, unique and newest first. An attempt shadows a row when it brings an empty binding id while the sender's row without a binding is shown above the last place. |
| PendingSenders.HoldsThroughoutIff | packages/messaging-gateway/src/pending-senders.ts:98-152 | For every run of rejections, the store holds the most recent after each of them exactly when none shadows a row. |
| PendingSenders.RowsTellTheirAttempts | packages/messaging-gateway/src/pending-senders.ts:98-152 | In every run that shadows no row, each row counts the attempts under its key since it was put into the store and shows the latest display name and username any of them gave. |
| PendingSenders.KeepsKeysUniqueIff | packages/messaging-gateway/src/pending-senders.ts:105-142 | One rejection keeps keys unique exactly when it does not shadow a row. |
| PendingSenders.EmptyBindingDuplicates | packages/messaging-gateway/src/pending-senders.ts:105-142 | Two rejections with an empty binding id leave two rows with one key. |
| PendingSenders.DismissIsExact | packages/messaging-gateway/src/pending-senders.ts:164-179 | Exactly the rows asked for go, and the rest stays unique and in order. |
| PairingThrottle.GrantsAreBounded | packages/messaging-gateway/src/pairing.ts:148-159 | Over every run of attempts on one key, no interval of a given length sees more than MaxGrants granted, for any rate. |
| PairingThrottle.BoundIsAttained | packages/messaging-gateway/src/pairing.ts:148-159 | For every rate and length some run is granted exactly MaxGrants, so the bound is the maximum. |
| PairingThrottle.TwentyNineTriesPerCode | packages/messaging-gateway/src/pairing.ts:43-51 | With five a minute, a code's five minutes see at most 29 attempts, and 29 can happen. |
| Pairing.PairingCodeManager.GenerateCode | packages/messaging-gateway/src/pairing.ts:89-114 | Issuing: rate check, purge, up to six draws, and the entry stored under its key. |
| Pairing.PairingCodeManager.ConsumeCode | packages/messaging-gateway/src/pairing.ts:120-130 | Redeeming deletes the entry and returns it, unless it is unknown, another workspace's or expired. |
| Pairing.PairingCodeManager.ClearWorkspaceCodes | packages/messaging-gateway/src/pairing.ts:133-137 | Exactly the workspace's codes go. |
| Pairing.PairingCodeManager.CanConsume | packages/messaging-gateway/src/pairing.ts:148-159 | An attempt opens a window when none is open or the last began more than a minute ago; otherwise it is counted, or refused when the window is full. |
| Pairing.PairingCodeManager.CheckRate | packages/messaging-gateway/src/pairing.ts:172-185 | The same window for codes issued to a workspace; a refusal changes nothing. |
| Pairing.PairingCodeManager.Gc | packages/messaging-gateway/src/pairing.ts:188-193 | Exactly the expired entries go. |
| Pairing.Pick | packages/messaging-gateway/src/pairing.ts:98-102 | The draw used is the first whose key is free, else the last. |
| PairingRuns.RedeemedIff | packages/messaging-gateway/src/pairing.ts:89-137 | In every run, a consume returns an entry exactly when it was issued earlier, its key was not reissued, redeemed or cleared since, and workspace, platform, code and time fit. |
| PairingRuns.RedeemedOnce | packages/messaging-gateway/src/pairing.ts:120-130 | Each issued code is redeemed at most once. |
| PairingRuns.IssuedFrom | packages/messaging-gateway/src/pairing.ts:95-113 | An issued entry carries its request's kind, workspace, session, platform and expiry, and replaces a live code exactly when all six draws are taken. |
| PairingRuns.RunsAreThrottled | packages/messaging-gateway/src/pairing.ts:148-185 | In every run of the manager, codes issued to a workspace and attempts allowed to a sender stay within MaxGrants over every interval. |
| PairingRuns.RefusedOnlyAtCap | packages/messaging-gateway/src/pairing.ts:148-185 | A refused code or attempt comes after at least the configured number of granted ones, at least one, within the minute before it. |
| PairingRuns.CodeKeyInjective | packages/messaging-gateway/src/pairing.ts:163-165 | Entries of different platforms or codes never share a key. |
| PairingRuns.SendersOfOneWorkspace | packages/messaging-gateway/src/pairing.ts:149 | Within a workspace, whatever its id, different senders have different counters. |
| PairingRuns.WorkspacesShareIff | packages/messaging-gateway/src/pairing.ts:149 | Two workspaces can share a counter exactly when one id, a colon and a platform name begin the other id and its colon. |
| PairingRuns.NestedHasColon | packages/messaging-gateway/src/pairing.ts:149 | Such an id holds a colon, so ids without colons never share. |
| TopicRegistry.Registry.FindOrCreate | packages/messaging-gateway/src/topic-registry.ts:92-141 | A call up to its first await: cached entry touched and returned, flight joined, or flight started. |
| TopicRegistry.Registry.TopicCreated | packages/messaging-gateway/src/topic-registry.ts:120-138 | createTopic resolved: an entry with the flight's name and chat and the created thread is cached under that name, the flight settles with it, and no other entry changes. |
| TopicRegistry.Registry.TopicFailed | packages/messaging-gateway/src/topic-registry.ts:120 | createTopic rejected: the flight settles with the error, nothing is cached. |
| TopicRegistry.Registry.Settle | packages/messaging-gateway/src/topic-registry.ts:142-146 | A caller gets its flight's outcome; the call that started it deletes the record. |
| TopicRegistry.Registry.RemoveTopic | packages/messaging-gateway/src/topic-registry.ts:149-156 | Removing drops the cached name only. |
| TopicRegistry.StepKeepsInv | packages/messaging-gateway/src/topic-registry.ts:92-156 | Every step keeps the records, calls and cache consistent. |
| TopicRegistry.OneCreateInFlight | packages/messaging-gateway/src/topic-registry.ts:107-141 | In every reachable state at most one createTopic is in flight per name, and then the name is not cached. |
| TopicRegistry.FinishRemovesItsOwnRecord | packages/messaging-gateway/src/topic-registry.ts:142-146 | A finishing call removes its own in-flight record and no other. |
| TopicRegistry.OverlappingCallsShare | packages/messaging-gateway/src/topic-registry.ts:99-108 | A call made while a flight for its name is outstanding ends with that flight's entry or error, removals in between included. |
| TopicRegistry.SharedOutcome | packages/messaging-gateway/src/topic-registry.ts:107-108 | Finished callers that share a flight have one outcome. |
| TopicRegistry.CreatesAreConserved | packages/messaging-gateway/src/topic-registry.ts:120-156 | Loaded plus created equals cached plus removed, for every name and run: nothing is created twice or overwritten. |
| TopicRegistry.CreatedOnce | packages/messaging-gateway/src/topic-registry.ts:92-147 | Without removals at most one create per name succeeds, and none for a loaded name. |
| TopicRuns.CallersGetTheirTopic | packages/messaging-gateway/src/topic-registry.ts:92-147 | In every run, a call that ended for a name has an entry of that name: the loaded one, or one with the thread a create for that name resolved with and the chat asked for by the call that started it; an error is one that a create for that name was rejected with. |
| TopicRuns.CreatesSettleTheirFlight | packages/messaging-gateway/src/topic-registry.ts:120-146 | A create that resolves or is rejected settles its flight for good with that thread or error, and a call that ends has its outcome. |
| TopicRuns.EntriesStay | packages/messaging-gateway/src/topic-registry.ts:92-156 | No step changes an entry, other than when it was last used. |
| TopicRuns.FindIsExact | packages/messaging-gateway/src/topic-registry.ts:92-108 | In every reachable state a call for a cached name ends at once with the cached entry and marks it used, one for a name being created joins that create, and any other starts one. |
| PermissionPrompts.PermissionMessages.SweepStalePermissions | packages/messaging-gateway/src/gateway.ts:403-427 | A prompt stays exactly when it is another session's or the event is a permission request for its id; those that stay keep their values. |
| PermissionPrompts.PermissionMessages.ClaimPress | packages/messaging-gateway/src/gateway.ts:473-536 | The synchronous part of a press claims and deletes the named prompt, or does nothing. |
| PermissionPrompts.PermissionMessages.RecordPermissionMessage | packages/messaging-gateway/src/gateway.ts:221-230 | The recorder puts the prompt under its request id. |
| PermissionPrompts.ResponsesWithinRecordings | packages/messaging-gateway/src/gateway.ts:511-551 | In every run, answers given, answers on their way and the live prompt of a request together never outnumber its recordings. |
| PermissionPrompts.ClaimedIff | packages/messaging-gateway/src/gateway.ts:403-536 | A press claims a request for a session exactly when it names it and, since that session's prompt was recorded, it was not recorded anew or named by another press and the session did nothing but ask for it again. |
| PermissionPrompts.StepIsExact | packages/messaging-gateway/src/gateway.ts:221-536 | What each event does to the live prompts: a recording puts its own, a session's event drops exactly that session's prompts but the one it asks for, a press drops exactly the one it names. |
| PermissionPrompts.ClaimIsQueued | packages/messaging-gateway/src/gateway.ts:536-551 | A press on a standing prompt queues the answer for the prompt's session and takes the prompt away. |
| PermissionPrompts.ClaimsAreConserved | packages/messaging-gateway/src/gateway.ts:511-551 | In every run the claims made are, as a multiset, the answers given and those on their way. |
| PermissionPrompts.AnswersUseLivePrompts | packages/messaging-gateway/src/gateway.ts:403-551 | Each answer goes to the session of a prompt with no other event of that session handled between its recording and the press. |
| PermissionPrompts.WaitingWasClaimed | packages/messaging-gateway/src/gateway.ts:536-551 | An answer on its way was claimed by an earlier press. |
| PermissionPrompts.ButtonNamesItsRequestIff | packages/messaging-gateway/src/gateway.ts:518-520 | A prompt's button names its own request exactly when the id is not empty and has no colon. |
| PermissionPrompts.ColonNamesAnother | packages/messaging-gateway/src/gateway.ts:518-520 | With a colon it names the request whose id is the part before it. |
| BindingStore.Store.Bind | packages/messaging-gateway/src/binding-store.ts:90-135 | Binding evicts the place's bindings and appends the new one. |
| BindingStore.Store.UpdateBindingConfig | packages/messaging-gateway/src/binding-store.ts:145-160 | One binding's config is merged and normalized in place; tells whether the id was found. |
| BindingStore.Store.Unbind | packages/messaging-gateway/src/binding-store.ts:162-178 | Exactly the place's bindings go; tells whether any did. |
| BindingStore.Store.UnbindById | packages/messaging-gateway/src/binding-store.ts:180-194 | The binding with that id goes; tells whether there was one. |
| BindingStore.Store.UnbindSession | packages/messaging-gateway/src/binding-store.ts:196-214 | Exactly the session's bindings go, on one platform or all; tells how many. |
| BindingStore.Store.FindByChannel | packages/messaging-gateway/src/binding-store.ts:68-76 | The first enabled binding of the place, or nothing when there is none. |
| BindingStore.BindRedirectsOnePlace | packages/messaging-gateway/src/binding-store.ts:68-135 | After bind the place reaches the new binding and every other place what it reached before. |
| BindingStore.UnbindClearsOnePlace | packages/messaging-gateway/src/binding-store.ts:68-178 | After unbind the place reaches nothing and every other place what it reached before. |
| BindingStore.RemovalIsExact | packages/messaging-gateway/src/binding-store.ts:162-214 | A removal drops exactly the bindings of the place, id or session asked for, and keeps the others in order. |
| AccessLockdown.Registry.PatchTelegramConfig | packages/messaging-gateway/src/registry.ts:1225-1240 | A patch changes the fields it names and keeps the others. |
| AccessLockdown.Registry.SetAccessMode | packages/messaging-gateway/src/registry.ts:1301-1321 | Setting the mode writes the config and, for owner-only, closes the open bindings. |
| AccessLockdown.Registry.MigrateOpenBindingsToInherit | packages/messaging-gateway/src/registry.ts:1328-1337 | Walking a snapshot while updating the live store sets every open Telegram binding of the snapshot to inherit, by id. |
| AccessLockdown.Registry.SetOwners | packages/messaging-gateway/src/registry.ts:1281-1292 | The owners are replaced by the list without repetitions and empty ids. |
| AccessLockdown.Registry.SeedOwner | packages/messaging-gateway/src/registry.ts:1247-1273 | With owners nothing changes and they are returned; without, the candidate becomes the only owner and an undecided workspace owner-only. |
| AccessLockdown.Registry.AllowSender | packages/messaging-gateway/src/registry.ts:1373-1460 | Allowing extends one binding's list or the owners, by the reason of the row; tells whether it raised no error. |
| AccessLockdown.Registry.SetAccess | packages/messaging-gateway/src/registry.ts:1467-1482 | One binding's mode and list are set; tells whether the binding exists. |
| AccessLockdown.LockDownLocksIff | packages/messaging-gateway/src/registry.ts:1301-1337 | Owner-only locks a workspace exactly when every open Telegram binding is the first with its id; it sets to inherit the bindings found under the ids of open ones, each in place, and changes no other and no owner. |
| AccessLockdown.UniqueIdsLock | packages/messaging-gateway/src/registry.ts:1301-1337 | With unique ids every workspace is locked, and exactly the open Telegram bindings are closed. |
| AccessLockdown.NewIdsAreClosable | packages/messaging-gateway/src/binding-store.ts:111-123 | After any calls that bind under new ids, starting from unique ids, the workspace can be locked. |
| AccessLockdown.CloseOpenAt | packages/messaging-gateway/src/registry.ts:1328-1337 | From any point of the loop on, exactly the bindings found under the ids of the open Telegram bindings left are set to inherit, each in place, repeated ids included. |
| AccessLockdown.StaysLockedIff | packages/messaging-gateway/src/registry.ts:1225-1482 | A locked workspace stays locked under a call exactly when the call is not one of four kinds that open it (among them a config write that wipes the Telegram settings). |
| AccessLockdown.ApplyKeepsUnique | packages/messaging-gateway/src/binding-store.ts:90-214 | Binding ids stay unique under every call. |
| AccessLockdown.LockDownHolds | packages/messaging-gateway/src/access-control.ts:59-114 | From locking down any workspace that can be locked, through any calls that do not open it, a Telegram message passes exactly when its sender is no bot and is an owner of an inheriting binding or on the binding's allow-list. |
| AccessLockdown.AllowOnOneBinding | packages/messaging-gateway/src/registry.ts:1396-1430 | A row turned away by one binding changes only the binding found under that id, which then admits its list and the sender; no owner is added. |
| AccessLockdown.AllowKeepsOthersIff | packages/messaging-gateway/src/registry.ts:1414-1422 | In a locked workspace this keeps everyone else admitted exactly when the binding used its list or every owner is on it. |
| AccessLockdown.OwnersAfterCall | packages/messaging-gateway/src/registry.ts:1225-1460 | Every call's effect on the owners: only setting them, allowing a sender the workspace turned away, seeding an empty list and a config write change them, each in the one way given. |
| AccessLockdown.OwnersOnlyGrow | packages/messaging-gateway/src/registry.ts:1247-1460 | Unless the owners are set outright or the config rewritten, every owner stays, in place, and exactly the senders of allowed rows join; nobody joins by redeeming a code. |
| AccessLockdown.FirstRedeemerOwns | packages/messaging-gateway/src/registry.ts:1247-1273 | The first redeemer in a workspace without owners owns it from then on and later redeemers do not; it is owner-only unless another mode was chosen. |
| AccessLockdown.ModeAfterCall | packages/messaging-gateway/src/registry.ts:1225-1460 | Only choosing a mode, a config write and a first or new owner in an undecided workspace change the access mode. |
| AccessLockdown.SettingsAfterCall | packages/messaging-gateway/src/registry.ts:396-760 | What each call does to the enabled flags and the paired supergroup, and that the other platforms stay. |
| AccessLockdown.AccessIsSet | packages/messaging-gateway/src/registry.ts:1467-1482 | The binding found under the id gets this mode, and exactly this list when the mode uses one; nothing else changes. |
| AccessLockdown.FailsIff | packages/messaging-gateway/src/registry.ts:1373-1482 | A call raises an error exactly when its row or its binding is not there, and then changes nothing. |
| AccessPolicy.AdmittedIff | packages/messaging-gateway/src/access-control.ts:59-114 | Who passes a binding, in any workspace, and what each rejection reason says about it. |
| AccessPolicy.PatchChangesWhatItNames | packages/messaging-gateway/src/binding-store.ts:145-160 | A config patch changes exactly the fields it names; WhatsApp approvals stay in the app. |
| AccessLockdown.DedupeIsExact | packages/messaging-gateway/src/registry.ts:1548-1555 | The owner list keeps every non-empty id given, each once. |

## Left out

Pages:

- HTTP parsing, multipart bodies, size and rate limits, headers, CSP strings and HTML templates.
- PBKDF2, SHA-256, HMAC, JSON and the random generator: the admin token is compared as a value, page ids and
  revisions are fresh when drawn, and the ticket lemmas take the JSON codec and the HMAC as parameters with
  their usual laws. `encoder.encode` of a payload is the identity on its ASCII text.
- The record's createdAt, updatedAt, unpublishedAt, lastAttemptAt and lastError, which no branch reads.
- Manifests that do not parse or lack an anchor: the model's manifests are those the worker wrote.
- The lifecycle rule is the one the operators document (`workers/pages/README.md:67-72`): all prefixes, by upload age. It may
  run late; that it ever runs is not assumed.
- An etag stands for the record: a conditional put may be refused at any time, and when it succeeds the stored
  record equals the loaded one. A manifest put that throws was not committed.
- The protocol is a state machine on values, not methods on an object: its requests interleave at every await.
- That no orphan object remains is not claimed: a password change that races a cleanup can put a deleted key again.
- Liveness: a request may stop forever between two calls, so nothing is said about when it answers; `RequestsCanEnd`
  says that it can. Effects are stated without interference; with it, `AnswersMatchCommits` says what an answer means.

Ephemeral queries:

- The listeners of an abort signal and the abort and dispose callbacks perform finitely many coordinator
  operations, given with the operation that runs them; a callback that throws is one whose list ends there.
- The function a caller passes to `run`, `throwIfCancelled` and the error that `setResource` throws back to it. The deadline is a real
  number and `Infinity` and `NaN` are absent values.

Gateway:

- Files: `load`, `save` and legacy migration. Stores start from given rows.
- Pending senders: session, channel and thread ids of a row, `clearPlatform`, and the reject-reply cooldown.
- Pairing: the three clock readings inside one `generate` are one. A clock that goes back is not covered.
- Topics: `createTopic` does not call `findOrCreate` for the same name before it returns its promise. That a cached
  entry's chat is the one asked for does not hold and is not stated.
- Permission prompts: what the renderer decides to send, the access gate's verdict (an input of a press) and whether
  `respondToPermission` delivers. Plan and bind buttons.
- Access: errors for platforms other than Telegram; `selfChatMode` and `domain`; the pending store's rows are inputs
  of an allow click, and its dismissals are in `PendingSenders`. Connecting adapters.

Text and build:

- Strings are sequences of 16-bit code units, surrogates included; `trim` removes the white space of the ECMAScript standard.
- NdjsonFraming.SentIsReceived: the JSON printer and parser are parameters that undo each other on one line
  (RFC 8259, section 7).
- DependencyTree.Copier.CopyRoots: copying a package succeeds; scope directories and the discovery of the roots are
  not modelled.
- Renderer streaming, adapters, RPC, the SDK session code, Electron, web and CLI code.
