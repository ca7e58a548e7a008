# Exawatt main process: a verification model

This project models the protocol code of Exawatt's Electron main process in Dafny and proves what that code keeps over
whole runs. `dafny verify dfyconfig.toml` checks all of it.

## What is modelled

Most of the main process is event-driven state around injected dependencies. One step of the model is the code between
two awaits of a dependency. For each such file there is

- a specification: the fields as a datatype, a function per step, `Step` over all events and `Run` over a list of them;
- a class with the file's own fields, whose methods change them in place and are proved equal to the specification, and
  whose `Valid()` is the invariant that the lemmas prove of every run, kept by each public method; and
- lemmas about every run of the specification, for any interleaving and any answer of the dependencies, and lemmas that say
  exactly what each step does to what is stored, answered or shown, in terms of the event and the state before it.

| module | models |
|---|---|
| `GatewaySession`, `ConnectedGateway` | one configured source: tunnel, credential, handshake, discovery, reconnect ladder, authority |
| `GatewayTunnels`, `GatewayOwnership` | who owns a tunnel, and when one is closed or lost |
| `GatewayOvertaken` | attempts overtaken by a later connect() or disconnect() |
| `GatewayHandshakes`, `GatewayGrants`, `GatewayHistory`, `GatewayReports`, `GatewayOverlap`, `GatewayLowering` | what granted authority rests on, and what takes it away |
| `GatewayRefresh` | topology hints, coalesced and periodic refreshes |
| `GatewayRetrying`, `GatewayRecords` | what the source says of reconnecting, and what its record says, against what the session does |
| `GatewayHoldings`, `GatewayTokens`, `GatewayStatus`, `GatewayWire`, `GatewayCourse` | exactly what each step does to what is stored, carried, shown and connected |
| `GatewayJourney`, `GatewayAsks` | what an attempt, a write ask, a relinquish and a disconnect come to when nothing disturbs them |
| `NativeDialogs`, `DialogBroker`, `DialogLines`, `DialogDeadlines`, `DialogAnswers`, `DialogOutcomes` | the native dialog broker: lines, turns, sheets, deadlines, closed windows |
| `AtomicJsonFile`, `JsonRecovery`, `JsonFiles` | the JSON store on a filesystem that may fail or stop at any call |
| `SourceStore`, `SourceRegistry`, `SourceEffects`, `ConnectedSources` | the source registry and its secrets file |
| `IdentityRules`, `GatewayIdentity`, `ProjectionPlan`, `ProjectionEffects` | Gateway identities and the projection plan |
| `NoticeDismissals` | the notice record with its replay of unsaved changes |
| `RendererPort`, `RendererPortPolicy` | the renderer's port and storage across launches |
| `RecoveryBudget`, `ServerSupervisor` | the sliding-window budget and the renderer server's supervisor |
| `DiagnosticsLog`, `DiagnosticsFamilies` | the bounded diagnostic recorder |
| `PhaseTracker` | the summary of a reconnecting episode |
| `Conversation`, `ConversationPages` | transcripts, turn ids and paging |
| `JsonComments` | the comment stripper |
| `GatewayAuthority`, `UntrustedInput`, `Options` | the authority tiers and their method lists, the bounds on untrusted text, and optional values |

## Properties that do not hold as one might expect

Each is shown false by a lemma with a concrete run or input, and comes with the exact condition under which it holds.

- A tunnel can be forgotten. A connect() that failed and is still in its own teardown does not look at the generation
  again. If another connect() overtakes it there, it arms the retry timer, two attempts share a generation, and one tunnel
  is lost (`GatewayOvertaken.ALateReportLeaksATunnel`). A step forgets one exactly when it overwrites a held one
  (`GatewayOwnership.LeaksExactlyWhenOverwritten`).
- A disconnected session can say Reconnecting: a disconnect() overtakes the same teardown
  (`GatewayOvertaken.ADisconnectCanEndReconnecting`). An overtaken attempt speaks at all exactly when it is such a connect()
  (`GatewayOvertaken.OvertakenReportsExactlyLate`).
- A grant recorded while a retry of the same generation is pairing is taken back when that pairing completes, although
  nothing was refused or given up (`GatewayLowering.AGrantBesideARetryIsTakenBack`). Authority falls exactly by a
  relinquish or by a pairing that comes back narrower (`GatewayLowering.FallsExactlyWhen`).
- A narrowed write ask can be recorded as granted: two that overlap on one client read each other's reports
  (`GatewayOverlap.OverlappingAsksRecordANarrowedGrant`). It happens exactly when another promise's handshake completed
  last on that client with a report that does not narrow (`GatewayReports.ANarrowedAskIsRecordedExactlyWhen`). The run needs
  a client that reports scopes; the shipped one does not (see Left out).
- Bytes found damaged can be lost when the readers and writers of a file do not accept the same objects
  (`AtomicJsonFile.DisagreementLosesDamage`). They survive every life exactly when no retry is offered, or nobody calls
  damaged an object that a writer of the file would overwrite (`AtomicJsonFile.DamagedBytesSurvive`). No shipped store that
  sets damaged bytes aside has such a life: a retry is offered for the workspace alone, whose readers and writers all take
  any object (electron/main/workspace-store.ts:48-72), and the closed-session ledger, which reads strictly and writes with
  the default validator, has no retry and reads again, strictly, before each write
  (electron/main/pty/closed-session-ledger.ts:73-138).
- A server that is down can be left alone while its app is not quitting: after three failed restarts the operator answers
  Quit, and until that quit is confirmed nobody attends to it (`ServerSupervisor.AnAnsweredQuitLeavesTheServer`). It is
  unattended exactly then or after a prompt that failed (`ServerSupervisor.SupervisionHolds`).
- A record marked swept can leave an origin behind though the launch that left it was not temporary and no write of its own
  failed (`RendererPort.AReHomeWithoutAPortLeavesAStray`; an earlier launch of that life could not write). A launch breaks
  the mark's promise exactly as `RendererPort.TheFlagLiesExactlyThen` says.
- A server detached and configured again at its first address can answer with another id
  (`SourceRegistry.AnotherAddressKeepsItsId`): exactly when a record of it stands that was made at another address
  (`SourceRegistry.ReconnectingReturnsTheId`).
- A credential that the store lets in can make its secrets file unreadable (`SourceRegistry.AnAdmittedTokenOverflows`: 16384
  characters of three bytes each); a write does so exactly when a ciphertext is longer than the file's own limit
  (`SourceRegistry.ReadableExactlyWhenItFits`).
- The plan can become one that its own reader refuses, and then no edit changes it (`ProjectionPlan.AnUnreadablePlanIsLeft`):
  by an observed identity (`ProjectionPlan.ARosterPastTheLimitIsRefused`: 501 configured Agents), or by a mapping of a second
  source, each within its own limit (`ProjectionPlan.TwoSourcesPassTheLimit`: 2000 and one more). It is accepted exactly when
  its rows and its bindings, over all sources, are at most 2000 each, no two coworkers share an id, and reading changes
  nothing but the order of any identity bound in it (`ProjectionPlan.EveryEditKeepsTheRules`).
- Reading an identity twice is not reading it once (`IdentityRules.ASpaceAtTheCutIsTrimmedLater`: a version with a space at
  its cut), exactly when the version is cut just after white space (`IdentityRules.OneReadingIsEnough`);
  electron/main/connected-gateway.ts:336-345 trims before it cuts.
- The power-of-two test is wrong at 2^32 + 1 (`PhaseTracker.TheTrickIsWrongPast32Bits`); what it decides instead is exactly
  `PhaseTracker.TheTrickDecidesExactly`.
- Stripping comments twice is not stripping them once (`JsonComments.EachPassTakesAMark`: a text of two byte-order marks),
  exactly when the text begins with two of them (`JsonComments.IdempotentExactlyWithoutTwoMarks`).

## Model

| member | source | states |
|---|---|---|
| `GatewayAuthority.GrantedFrom` | electron/main/connected-gateway.ts:1789-1799 | a handshake buys write only if write was asked for and a report that names any scope still names the write scope: a report can only narrow |
| `GatewayTunnels.StepClosesOnce` | electron/main/connected-gateway.ts:2202-2234 | every step keeps: no tunnel in the list of closes twice, a held tunnel never in it, and each close done or awaited by a step in flight |
| `GatewayTunnels.NoTunnelIsClosedTwice` | electron/main/connected-gateway.ts:1158-1251 | in every interleaving of connects, disconnects, drops, retries and answers no tunnel is closed twice and none that is held was closed |
| `GatewayOwnership.LeaksExactlyWhenOverwritten` | electron/main/connected-gateway.ts:1323-1350 | a step forgets a tunnel if and only if it hands a new one to an attempt of the current generation while another is held |
| `GatewayOwnership.NoTunnelIsForgotten` | electron/main/connected-gateway.ts:1174-1251 | while no retry fires beside an attempt of its generation that still awaits its tunnel, every tunnel ever opened is held or was closed |
| `GatewayOwnership.NothingStaysOpenAfterDisconnect` | electron/main/connected-gateway.ts:1152-1165 | under that same condition, once disconnect() is the last intent and the steps in flight have drained, every tunnel made has finished closing |
| `GatewayOvertaken.OvertakenStepWritesNothing` | electron/main/connected-gateway.ts:1819-1971 | a step whose generation is no longer current leaves credential, port, authority, identity and snapshot as they were, and what remains of its attempt is behind as well |
| `GatewayOvertaken.OvertakenForGood` | electron/main/connected-gateway.ts:1170-1172 | an overtaken attempt stays overtaken under every later event |
| `GatewayOvertaken.OvertakenAttemptWritesNothing` | electron/main/connected-gateway.ts:1522-1600 | over any run from the moment an attempt is overtaken, none of its later steps writes to the store or the topology |
| `GatewayOvertaken.OvertakenReportsExactlyLate` | electron/main/connected-gateway.ts:561-589 | an overtaken attempt moves the phase or arms the retry timer if and only if it is a connect() coming back from a teardown of its own |
| `GatewayOvertaken.ALateReportLeaksATunnel` | electron/main/connected-gateway.ts:1203-1211 | a concrete run from a fresh session with a stored credential, whose first handshake is cut off unanswered, in which that late report puts two attempts in one generation and a tunnel is lost |
| `GatewayOvertaken.ADisconnectCanEndReconnecting` | electron/main/connected-gateway.ts:577-583 | a concrete run from the same beginning that ends detached, with nothing in flight and no timer, in phase Reconnecting |
| `GatewayHandshakes.StepConsistent` | electron/main/connected-gateway.ts:1716-1757 | however many promises share a client, each pending handshake is dead or presents the scopes its own attempt asked for, and a report changes only by a completed handshake |
| `GatewayGrants.StepAuthority` | electron/main/connected-gateway.ts:1802-1812 | the whole effect of any step on granted authority, and on the methods that reached the client |
| `GatewayGrants.AuthorityNeedsAWriteHandshake` | electron/main/connected-gateway.ts:1533-1600 | in every run write authority was seeded or a handshake that presented write scopes completed |
| `GatewayHistory.AuthorityNeedsAWideHandshake` | electron/main/connected-gateway.ts:894-912 | while no client has two asks or relinquishes in flight, write authority was seeded or such a handshake completed without being narrowed by the Gateway's report |
| `GatewayReports.ANarrowedAskIsRecordedExactlyWhen` | electron/main/connected-gateway.ts:894-930 | in every run, an ask about to record its grant reads the report of the handshake completed last on its client, so one whose own handshake was narrowed records a grant if and only if another promise's handshake has completed there since with a report that does not narrow, and the client holds a token |
| `GatewayOverlap.OverlappingAsksRecordANarrowedGrant` | electron/main/connected-gateway.ts:865-930 | a concrete run of two overlapping asks, from a fresh session, that ends with write authority and no handshake left unnarrowed |
| `GatewayLowering.WritesOnlyUnderWriteAuthority` | electron/main/connected-gateway.ts:1980-2030 | over any run a write method reaches the client only in a state whose granted authority is write |
| `GatewayLowering.MethodTiersAreDisjoint` | electron/main/connected-gateway-authority.ts:29-97 | no method is on both allowlists |
| `GatewayLowering.FallsExactlyWhen` | electron/main/connected-gateway.ts:1535-1600 | write authority falls in a step if and only if the operator relinquishes it or a live pairing asked for read or was reported narrower |
| `GatewayLowering.WriteAuthorityIsKept` | electron/main/connected-gateway.ts:1546-1551 | while every handshake failure is unanswered, no report narrows, nothing is relinquished and no grant is recorded beside a pairing in flight, write authority is never lowered |
| `GatewayLowering.AGrantBesideARetryIsTakenBack` | electron/main/connected-gateway.ts:2152-2158 | a concrete run in which a retry that began pairing before a grant takes it back |
| `GatewayLowering.FreshStands` | electron/main/connected-gateway.ts:483-530 | a session just built meets every standing hypothesis of the theorems about runs |
| `GatewayRefresh.HintsAreNotLost` | electron/main/connected-gateway.ts:651-697 | at most one refresh is in flight, and while the connection lasts every topology hint leaves a timer set or a queued refresh until one that began after it |
| `GatewayRefresh.AStandingHintIsServed` | electron/main/connected-gateway.ts:692-708 | that refresh is one timer away, or waits only for the one in flight |
| `GatewayRetrying.WhatIsShownIsRetried` | electron/main/connected-gateway.ts:2122-2188 | in every run, until the operator disconnects, a source shown as reconnecting has its timer set or an attempt in flight that will say otherwise, and one that says it is retrying has its timer set or a retry in flight |
| `GatewayRetrying.AnOutageIsNotForgotten` | electron/main/connected-gateway.ts:572-583 | once nothing is in flight, a source still wanted and shown as reconnecting has its timer set, and the timer starts a retry |
| `GatewayRecords.TheRecordIsWhatIsObeyed` | electron/main/connected-gateway.ts:1802-1812 | in every run the stored authority is the one the session obeys, the stored port the one an alias declared, and no snapshot lacks its identity |
| `GatewayHoldings.StepCredential` | electron/main/connected-gateway.ts:1563-1715 | the whole effect of any step on the stored credential: a live current pairing leaves the token just issued when that is not the one it came with, and none when the write was not kept; a stored credential that is refused is cleared; a recorded ask leaves its client's token; nothing else touches it |
| `GatewayHoldings.StepTopology` | electron/main/connected-gateway.ts:1908-1954 | the whole effect of any step on the tree that is shown: an observation heard by a current opening or refresh replaces tree and identity together, and ends drift, if nobody is remembered or somebody remembered is in it; otherwise it is reported as drift and both stay; nothing else touches them |
| `GatewayHoldings.StepPort` | electron/main/connected-gateway.ts:1299-1322 | a port is remembered and stored exactly when a discovery of the current generation names it |
| `GatewayIdentity.DriftedExactlyWhenNobodyIsShared` | electron/main/gateway-identity.ts:128-136 | two rosters are of different installations if and only if the remembered one is not empty and they share no Agent |
| `GatewayTokens.StepTokens` | electron/main/connected-gateway.ts:1535-1600 | the whole effect of any step on the token each client carries: a completed handshake leaves the issued one, an ask begins with none and puts the previous one back whenever it ends without its grant, and nothing else touches it |
| `GatewayTokens.PairingPresentsWhatIsHeld` | electron/main/connected-gateway.ts:1501-1534 | a pairing is made on a client of its own, with the credential found in the store and the scopes of the authority held |
| `GatewayStatus.StepStatus` | electron/main/connected-gateway.ts:2122-2188 | the whole effect of any step on the phase, the failure and the retry that are shown: a lost connection is news unless the operator left, it is being closed or renegotiated or it is lost already; an attempt that failed is tried again only for an unreachable host or a Gateway that is down; and an attempt that goes on says where it is |
| `GatewayWire.StepLink` | electron/main/connected-gateway.ts:2202-2234 | the whole effect of any step on the handles and flags of the connection: which steps drop it, lay a tunnel, take a client, begin to watch, and begin or end a renegotiation |
| `GatewayWire.StepTransport` | electron/main/connected-gateway.ts:1187-1251 | the whole effect of any step on whether the transport is shown as up, and on the facts a bootstrap carries |
| `GatewayWire.StepTimers` | electron/main/connected-gateway.ts:651-708 | the whole effect of any step on the refresh in flight, the hint that waits for it, and the coalescing and periodic timers |
| `GatewayWire.NoSocketIsLeft` | electron/main/connected-gateway.ts:1512-1533 | the client of a connection that is dropped, and one that an overtaken attempt opened, is hung up on the spot, and whatever it still awaited is dead |
| `GatewayWire.WhatBegins` | electron/main/connected-gateway.ts:561-838 | exactly which promise an event begins, and under which guards: an attempt, a departure, a refresh, an ask or a relinquish; those in flight stay as they were |
| `GatewayCourse.WhereAPromiseGoes` | electron/main/connected-gateway.ts:1187-1251 | where each answer takes the promise that awaited it, current or overtaken: on to its next stage, to the close of its own connection, or to its end; no other promise moves |
| `GatewayCourse.StepPipes` | electron/main/connected-gateway.ts:1323-1350 | the whole effect of any step on the tunnels: one is made exactly when it arrives, the held one closed exactly when its connection is dropped and a late one on the spot, and a close is done exactly when it is reported |
| `GatewayStatus.AFailureClosesFirst` | electron/main/connected-gateway.ts:1202-1238 | an attempt that gives up, and for which failure, drops its client and closes its tunnel before it reports |
| `GatewayJourney.AnUndisturbedAttemptConnects` | electron/main/connected-gateway.ts:1187-1251 | from any session, a connect or a retry answered at every turn by an installation sharing an Agent with the one remembered ends Connected and observing, over a tunnel of its own with the previous one closed, on a client of its own at the authority held, with what the pairing issued stored if it could be kept, the tree observed, authority what the report left of it, the ladder back at its start and nothing in flight |
| `GatewayAsks.AnUndisturbedAskIsGranted` | electron/main/connected-gateway.ts:839-930 | an ask answered at every turn by a Gateway that issues a token and does not narrow it ends with write authority obeyed and recorded and that token stored and carried, and leaves everything else as it was |
| `GatewayAsks.ARefusedAskIsPutBack` | electron/main/connected-gateway.ts:894-953 | an ask whose handshake fails ends with the same client at read scopes with the token it had, and credential, authority and everything else as they were |
| `GatewayAsks.AnUnboughtAskIsPutBack` | electron/main/connected-gateway.ts:894-953 | the same of an ask that was narrowed, issued no token or could not be kept |
| `GatewayAsks.ARelinquishIsObeyed` | electron/main/connected-gateway.ts:1107-1149 | authority is read, obeyed and recorded, before anything is awaited, and the client then presents read scopes |
| `GatewayAsks.ADisconnectLeavesNothing` | electron/main/connected-gateway.ts:1158-1165 | a disconnect that has closed is idle, holds no client and no tunnel, observes nothing and has no retry to come, and keeps what was learnt and stored |
| `ConnectedGateway.StepUpheld` | electron/main/connected-gateway.ts:432-720 | what the class holds as valid is kept by every event: no tunnel closed twice, one refresh at most, every pending handshake known to its client or dead, what is shown as reconnecting retried, and the record naming what is obeyed |
| `ConnectedGateway.ConnectedGatewaySession.constructor` | electron/main/connected-gateway.ts:483-530 | a new session is the specification's fresh state, and valid |
| `ConnectedGateway.ConnectedGatewaySession.Connect` | electron/main/connected-gateway.ts:561-567 | connect() up to its first await is the specification's step, and keeps the session valid |
| `ConnectedGateway.ConnectedGatewaySession.Disconnect` | electron/main/connected-gateway.ts:1158-1163 | disconnect() up to its await is the specification's step, and keeps the session valid |
| `ConnectedGateway.ConnectedGatewaySession.ReconnectTimerFires` | electron/main/connected-gateway.ts:2146-2156 | the retry timer's callback is the specification's step and re-uses the generation |
| `ConnectedGateway.ConnectedGatewaySession.TeardownConnection` | electron/main/connected-gateway.ts:2202-2225 | teardown empties the handles before closing them and answers the tunnel whose close is awaited |
| `ConnectedGateway.ConnectedGatewaySession.HandleDrop` | electron/main/connected-gateway.ts:2122-2132 | a drop is ignored while detached, tearing down, renegotiating or already reconnecting, and otherwise begins the ladder |
| `ConnectedGateway.ConnectedGatewaySession.ScheduleReconnect` | electron/main/connected-gateway.ts:2134-2150 | at most one retry timer, and the ladder's count stops at its clamp |
| `ConnectedGateway.ConnectedGatewaySession.ReportFailure` | electron/main/connected-gateway.ts:2159-2188 | what connect() and attemptReconnect() do with a failed attempt, with and without the generation check |
| `ConnectedGateway.ConnectedGatewaySession.BeginTransport` | electron/main/connected-gateway.ts:1275-1323 | which transport awaits what, and when an alias reads its port first |
| `ConnectedGateway.ConnectedGatewaySession.ResumeTransport` | electron/main/connected-gateway.ts:1299-1350 | a discovered port is remembered and a tunnel held only by the current attempt |
| `ConnectedGateway.ConnectedGatewaySession.ResumeOvertaken` | electron/main/connected-gateway.ts:1324-1339 | a tunnel or a socket that arrives for an overtaken attempt is closed on the spot |
| `ConnectedGateway.ConnectedGatewaySession.BeginPair` | electron/main/connected-gateway.ts:1501-1534 | a new client is dialled with the scopes of the authority held |
| `ConnectedGateway.ConnectedGatewaySession.ResumeHandshake` | electron/main/connected-gateway.ts:1535-1600 | an answered refusal of write is asked again as read, silence is not, and what a completed handshake stores |
| `ConnectedGateway.ConnectedGatewaySession.ResumeReading` | electron/main/connected-gateway.ts:1855-1954 | failed reads, an unreadable topology, drift, or a commit of the whole observation |
| `ConnectedGateway.ConnectedGatewaySession.ResumeOpening` | electron/main/connected-gateway.ts:1187-1251 | every continuation of an opening attempt is the specification's step |
| `ConnectedGateway.ConnectedGatewaySession.RunResnapshot` | electron/main/connected-gateway.ts:651-658 | a refresh starts, or is queued behind the one in flight |
| `ConnectedGateway.ConnectedGatewaySession.SettleResnapshot` | electron/main/connected-gateway.ts:660-668 | a settled refresh hands a queued hint to the coalescing timer |
| `ConnectedGateway.ConnectedGatewaySession.ResumeRefreshing` | electron/main/connected-gateway.ts:671-683 | what a refresh does with each answer, current or overtaken |
| `ConnectedGateway.ConnectedGatewaySession.RequestWriteAuthority` | electron/main/connected-gateway.ts:812-838 | an ask begins only with a client and without write authority |
| `ConnectedGateway.ConnectedGatewaySession.ResumeAsking` | electron/main/connected-gateway.ts:839-953 | every continuation of a write ask: cycle, record the grant, restore read, or abandon |
| `ConnectedGateway.ConnectedGatewaySession.RelinquishWriteAuthority` | electron/main/connected-gateway.ts:1107-1137 | authority is lowered first, and the client cycled at read |
| `ConnectedGateway.ConnectedGatewaySession.ResumeRelinquishing` | electron/main/connected-gateway.ts:1131-1149 | what a relinquish does with its handshake's answer |
| `ConnectedGateway.ConnectedGatewaySession.CallGateway` | electron/main/connected-gateway.ts:1980-2030 | a call is sent if and only if there is a client and the surface's guard admits the method |
| `ConnectedGateway.ConnectedGatewaySession.ResumePromise` | electron/main/connected-gateway.ts:561-720 | resuming any suspended promise is the specification's step, and keeps the session valid |
| `DialogLines.TurnsHold` | electron/main/native-dialogs.ts:200-270 | after any events each line has at most one native call, asks in the order requests joined, rests only with nobody waiting, and a request in no line and not asked was answered |
| `DialogDeadlines.DeadlinesHold` | electron/main/native-dialogs.ts:171-248 | time spent unanswered and without a sheet of its own, while no sheet is up, never exceeds the deadline, and the clock runs exactly when the line has no sheet |
| `DialogAnswers.AnswersStand` | electron/main/native-dialogs.ts:317-390 | no request is answered twice over any run, and each window has at most one folder request without an answer |
| `DialogAnswers.BusyExactlyWhilePicking` | electron/main/native-dialogs.ts:301-306 | a live window's folder request is refused as busy if and only if one is still unanswered |
| `DialogAnswers.ClosingMovesEverybodyOn` | electron/main/native-dialogs.ts:229-237 | when a window closes, each unanswered request that waited there is cancelled if it is for a folder and otherwise stands in the app's line |
| `DialogAnswers.NothingIsAskedUnderASheet` | electron/main/native-dialogs.ts:250-270 | whatever a step asks, it asks on a line that has no sheet up |
| `DialogAnswers.OneNativeCallPerLine` | electron/main/native-dialogs.ts:261-268 | two native calls outstanding at once are on different lines |
| `DialogAnswers.ToldToCloseExactlyThen` | electron/main/native-dialogs.ts:433-444 | a message box is told to close if and only if its deadline passes while its own native call is outstanding, unanswered and without a sheet, and it is answered as not presented then |
| `DialogOutcomes.StepAnswer` | electron/main/native-dialogs.ts:229-446 | what answers an unanswered request in a step, and with which answer: its own native call settles (with its result), it is a box whose signal aborts before it began, its deadline rings before it began, or it is a folder request in the line of a window that is gone; in any other step it stays unanswered |
| `DialogOutcomes.ACallIsAnsweredAtOnceExactlyThen` | electron/main/native-dialogs.ts:296-399 | a call makes one request, answered at once if and only if its window is gone, its window has a folder request open, or its signal is aborted already |
| `DialogOutcomes.StepWindows` | electron/main/native-dialogs.ts:200-237 | the whole effect of an event on a window: when it is gone, from when it is watched, and how many sheets are up on it |
| `DialogOutcomes.NotPresentedExactlyAtTheDeadline` | electron/main/native-dialogs.ts:171-248 | in every run a request is answered as not presented by its timer if and only if no sheet is up and the whole deadline has been charged to it |
| `DialogBroker.StepSound` | electron/main/native-dialogs.ts:171-456 | what the class holds as valid is kept by every event: the lines and their turns, the clocks against their deadlines, and one folder request a window; and answers given stand |
| `DialogBroker.NativeDialogBroker.PumpWindow` | electron/main/native-dialogs.ts:252-270 | the loop over a window's line is the specification's pump |
| `DialogBroker.NativeDialogBroker.PumpApp` | electron/main/native-dialogs.ts:252-270 | the loop over the app's line is the specification's pump |
| `DialogBroker.NativeDialogBroker.OpenDirectory` | electron/main/native-dialogs.ts:301-373 | a folder request's three fates: no window, busy, or in line |
| `DialogBroker.NativeDialogBroker.ShowMessageBox` | electron/main/native-dialogs.ts:375-456 | a message box answered at once when its signal is already aborted, and otherwise in line |
| `DialogBroker.NativeDialogBroker.SheetBegins` | electron/main/native-dialogs.ts:212-221 | the asked request takes the sheet as its own, and everyone waiting stops the clock |
| `DialogBroker.NativeDialogBroker.SheetEnds` | electron/main/native-dialogs.ts:222-228 | the last sheet down starts the clocks and pumps |
| `DialogBroker.NativeDialogBroker.NativeCallSettles` | electron/main/native-dialogs.ts:264-268 | the first answer stands and the turn passes on |
| `DialogBroker.NativeDialogBroker.SignalAborts` | electron/main/native-dialogs.ts:391-399 | an abort answers a message box only before it began |
| `DialogBroker.NativeDialogBroker.WindowCloses` | electron/main/native-dialogs.ts:229-237 | the slot is freed and everyone waiting is moved on in order |
| `DialogBroker.NativeDialogBroker.TimerRings` | electron/main/native-dialogs.ts:433-444 | an expired request is answered as not presented, and an asked message box dismissed |
| `AtomicJsonFile.ReplaceIsWhole` | electron/main/atomic-json-file.ts:135-148 | whichever call fails or is the last, the file is as it was or holds the new value whole, and nothing else but the temporary changed |
| `AtomicJsonFile.CommitIsWhole` | electron/main/atomic-json-file.ts:151-169 | the same of the asynchronous writer's second half, which changes nothing behind a marker |
| `AtomicJsonFile.QuarantineKeeps` | electron/main/atomic-json-file.ts:68-84 | the marker is up before the bytes move, and they arrive untouched |
| `AtomicJsonFile.ReadAnswers` | electron/main/atomic-json-file.ts:87-112 | what a read answers, and what it keeps as evidence, is what the disk held |
| `AtomicJsonFile.ReaderSeesOldOrNew` | electron/main/atomic-json-file.ts:172-179 | after a write stopped anywhere a reader sees the old value, the new one or a store that needs recovery, and a store that needs it is not written |
| `AtomicJsonFile.WhatIsWrittenReadsBack` | electron/main/atomic-json-file.ts:87-179 | a write that reports success reads back if and only if its own store accepts the value |
| `AtomicJsonFile.DamagedBytesSurvive` | electron/main/atomic-json-file.ts:53-274 | bytes found damaged survive every life of a file, each read and write bringing its own validator, if and only if no retry is offered or none of its readers and writers calls damaged an object that one of its writers would overwrite |
| `AtomicJsonFile.EveryLifeStaysSound` | electron/main/atomic-json-file.ts:53-274 | under that condition, over any life, bytes found damaged stay at the file behind a marker or refused by every writer, or in a .corrupt- or a .before-reset- file, and the file only ever holds something put there whole |
| `AtomicJsonFile.DisagreementLosesDamage` | electron/main/atomic-json-file.ts:248-260 | without it there is a life in which they are nowhere: a find whose move fails, a retry, and a write or commit |
| `AtomicJsonFile.MarkerBlocks` | electron/main/atomic-json-file.ts:182-225 | while a marker stands no reader or writer changes anything but its own temporary |
| `JsonRecovery.AReadDoesExactlyThis` | electron/main/atomic-json-file.ts:87-112 | when nothing goes wrong a read answers what the file holds, or that it needs recovery, and moves only bytes it calls damaged |
| `JsonRecovery.EvidenceIsThere` | electron/main/atomic-json-file.ts:227-245 | the evidence of a marker is there: the bytes it names, else the file, else the marker itself |
| `JsonRecovery.AWriteLandsExactlyThen` | electron/main/atomic-json-file.ts:135-179 | when nothing goes wrong a write lands whole, with nothing of its own left behind, if and only if no marker stands and its own read does not call the file damaged |
| `JsonRecovery.AFailedWriteCleansUp` | electron/main/atomic-json-file.ts:135-169 | a write that one failing call stops, whichever it is, leaves no temporary beside the file |
| `JsonRecovery.ARecoveryRecovers` | electron/main/atomic-json-file.ts:248-274 | whatever may fail, a recovery that reports success has taken the marker away, over an object that stood at the file or after moving the file aside, and has changed nothing else |
| `JsonRecovery.ARecoverySucceedsExactlyThen` | electron/main/atomic-json-file.ts:248-274 | when nothing goes wrong a reset succeeds exactly over a marker and a retry exactly over a marker and an object |
| `JsonRecovery.AfterARecovery` | electron/main/atomic-json-file.ts:248-274 | after a reset a reader finds nothing and the next write lands; after a retry a reader finds the object and a write lands if it accepts that object, and finds it damaged again if it does not |
| `JsonFiles.Filesystem.Quarantine` | electron/main/atomic-json-file.ts:68-84 | the calls in order are the specification's quarantine |
| `JsonFiles.Filesystem.ReadJsonFile` | electron/main/atomic-json-file.ts:87-112 | the calls in order are the specification's read and one step of the file's life, which stays sound |
| `JsonFiles.Filesystem.ReplaceJsonFileAtomic` | electron/main/atomic-json-file.ts:135-148 | the calls in order, with the removal that runs after a failure too |
| `JsonFiles.Filesystem.WriteJsonFileAtomic` | electron/main/atomic-json-file.ts:172-179 | a read that finds a recovery blocks the write; together they are one step of the file's life, which stays sound |
| `JsonFiles.Filesystem.CommitJsonFileAsync` | electron/main/atomic-json-file.ts:151-169 | the asynchronous writer's second half: the marker is looked for again just before the rename; one step of the file's life, which stays sound |
| `JsonFiles.Filesystem.WriteJsonFileAtomicAsync` | electron/main/atomic-json-file.ts:216-225 | the read with the default validator, and the commit when it ran through: two steps of the file's life, which stays sound |
| `JsonFiles.Filesystem.RecoverJsonFile` | electron/main/atomic-json-file.ts:248-274 | retry and reset, each of which removes the marker last; one step of the file's life, which stays sound |
| `SourceRegistry.EveryRunStaysSound` | electron/main/connected-source-store.ts:317-547 | from empty files, after any operations each stopped between any two writes and whatever the ciphertexts: ids distinct, servers distinct, at most 200 records that parse, both credential maps on the same keys, each key configured |
| `SourceRegistry.EveryRunStaysReadable` | electron/main/connected-source-store.ts:186-261 | both files are ones their own readers accept as long as no credential written was longer than the secrets file's limits |
| `SourceRegistry.UnreadableSecretsBlock` | electron/main/connected-source-store.ts:443-452 | secrets that cannot be read are changed by no operation: no source can be given a credential, lose one or be detached |
| `SourceRegistry.ReadableExactlyWhenItFits` | electron/main/connected-source-store.ts:464-502 | a credential write leaves a file that its own reader accepts if and only if both ciphertexts fit |
| `SourceRegistry.AnAdmittedTokenOverflows` | electron/main/connected-source-store.ts:468-484 | a token of 16384 characters of three bytes each passes the guards, and no encryption that lengthens makes it fit |
| `SourceRegistry.OneServerOneRecord` | electron/main/connected-source-store.ts:317-361 | configuring a server answers with the record it has, changed at most in its name, or with a new read-only one whose id is the digest of its target |
| `SourceRegistry.ReconnectingReturnsTheId` | electron/main/connected-source-store.ts:317-452 | after a record is made for a server and any operations follow, configuring the server at the same address answers with the first id if and only if no record of the server stands by then, as after a detach, or the one that does was last made at that address |
| `SourceRegistry.AnotherAddressKeepsItsId` | electron/main/connected-source-store.ts:142-167 | a concrete life, made at one port, detached, made at another, in which the first address answers with the other id |
| `SourceRegistry.UnreadableIsRejected` | electron/main/connected-source-store.ts:92-121 | a transport from which no target can be read is one the parse refuses |
| `SourceRegistry.DetachTakesExactlyOne` | electron/main/connected-source-store.ts:443-452 | a detach takes that source's record and credential and nothing else, and takes nothing when the secrets cannot be read |
| `SourceEffects.ADiscoveredPortIsRecorded` | electron/main/connected-source-store.ts:386-408 | with no write failing, a valid port for a configured alias is that record's port afterwards, and its id, alias, name, flag and authority, every other record and the secrets stay; any other call changes nothing |
| `SourceEffects.AnAuthorityIsRecorded` | electron/main/connected-source-store.ts:418-436 | the record of a configured source has the authority given, and nothing else changes |
| `SourceEffects.ANameIsRecorded` | electron/main/connected-source-store.ts:363-376 | the record of a configured source has the name given if and only if that is bounded and not blank, and nothing else changes |
| `SourceEffects.ACredentialIsKeptExactlyThen` | electron/main/connected-source-store.ts:464-500 | both ciphertexts are kept under the id and the record says so if and only if the guards admit them, the platform encrypts both and the secrets can be read; every other record and credential stays |
| `SourceEffects.ACredentialIsCleared` | electron/main/connected-source-store.ts:537-547 | both halves of that credential are forgotten and the record says so; unreadable secrets stay as they are |
| `SourceEffects.ADetachCutsItOut` | electron/main/connected-source-store.ts:443-452 | a detach cuts the record out where it stands and leaves the rest in order |
| `SourceEffects.AnUnknownSourceChangesNothing` | electron/main/connected-source-store.ts:363-547 | no operation on a source that is not configured changes either file |
| `SourceEffects.AKnownServerKeepsItsRecord` | electron/main/connected-source-store.ts:317-342 | configuring a server that has a record changes its name and nothing else, and is refused for a name that is none |
| `SourceEffects.ANewServerIsAppendedExactlyThen` | electron/main/connected-source-store.ts:343-361 | any other server is appended, with its digest for an id and as it was given, read-only and without a credential, if and only if there is room and everything parses |
| `SourceEffects.FlagsTellTheTruth` | electron/main/connected-source-store.ts:317-547 | over any life that nothing stops, a record says it has a credential exactly when both halves are there |
| `SourceEffects.AStoppedWriteIsNotMentioned` | electron/main/connected-source-store.ts:489-494 | a process that dies between the two writes leaves a credential that its record does not mention |
| `ConnectedSources.CheckRegistry` | electron/main/connected-source-store.ts:244-261 | the pass with a set of ids accepts exactly the registries whose rows parse, with distinct ids and within the limit |
| `ConnectedSources.Collect` | electron/main/connected-source-store.ts:279-296 | list() gives every row of an accepted document, in order |
| `ConnectedSources.ConnectedSourceStore.Add` | electron/main/connected-source-store.ts:317-361 | add() is the specification's step on both files, which stay sound |
| `ConnectedSources.ConnectedSourceStore.SetDiscoveredGatewayPort` | electron/main/connected-source-store.ts:386-408 | only an alias takes a port, and keeps its id |
| `ConnectedSources.ConnectedSourceStore.WriteDeviceCredential` | electron/main/connected-source-store.ts:464-500 | the guards on token and keypair, then both halves in one write, then the record's flag; the files stay sound |
| `ConnectedSources.ConnectedSourceStore.ClearDeviceToken` | electron/main/connected-source-store.ts:537-547 | both halves go together |
| `ConnectedSources.ConnectedSourceStore.Remove` | electron/main/connected-source-store.ts:443-452 | the credential is cleared before the record goes, and the files stay sound |
| `IdentityRules.NormalizeGatewayIdentity` | electron/main/gateway-identity.ts:52-76 | the loop with a set and a sort computes the trimmed version and the usable ids, once each, in code-unit order |
| `IdentityRules.ReadingKeepsExactlyTheNormal` | electron/main/gateway-identity.ts:42-76 | reading leaves an identity as it is if and only if it is normal |
| `IdentityRules.OneReadingIsEnough` | electron/main/gateway-identity.ts:56-59 | what is read once is read the same again if and only if its version was not cut just after white space |
| `IdentityRules.ASpaceAtTheCutIsTrimmedLater` | electron/main/gateway-identity.ts:56-59 | a version of 511 letters, a space and a letter is read one way once and another way when that is read again |
| `IdentityRules.OrderDoesNotMatter` | electron/main/gateway-identity.ts:45-50 | rosters with the same members, in any order and with repeats, read as the same installation |
| `IdentityRules.WhatIsRead` | electron/main/gateway-identity.ts:52-76 | the ids read are exactly those among the first five hundred candidates that are not blank and not too long, each once and in order; the version is trimmed and cut; and nothing is read exactly when neither is left |
| `IdentityRules.SameGatewayIdentity` | electron/main/gateway-identity.ts:97-106 | the ordered comparison decides equality |
| `ProjectionPlan.NormalizeRows` | electron/main/connected-agent-projection-plan.ts:156-171 | the loop over a map and a set keeps exactly the first readable row of each key and id |
| `ProjectionPlan.GoodPlansAreReadBack` | electron/main/connected-agent-projection-plan.ts:174-237 | an accepted plan of readable rows under derived ids reads back with the same rows, and wholly as it is if and only if reading leaves every identity bound in it alone |
| `ProjectionPlan.AcceptedExactlyWhen` | electron/main/connected-agent-projection-plan.ts:174-210 | a plan of such rows is accepted by its own reader if and only if it is not too long, no two coworkers have one id, and reading changes nothing but the order of any identity bound in it |
| `ProjectionPlan.EveryEditKeepsTheRules` | electron/main/connected-source-runtime.ts:888-1100 | from an empty plan every sequence of mapAgents, detach and identity writes, each reading the plan first and whatever identities were observed, keeps every row readable, every key distinct and every id the one its key derives, and the plan is accepted by its own reader exactly under that condition |
| `ProjectionPlan.AnUnreadablePlanIsLeft` | electron/main/connected-agent-projection-plan.ts:220-224 | a plan that its own reader refuses is changed by no sequence of edits |
| `ProjectionPlan.OtherSourcesStay` | electron/main/connected-source-runtime.ts:955-963 | an edit of one source leaves every other source's rows and their order, and its binding as it was or as it reads |
| `ProjectionEffects.AMappingLeavesTheChoices` | electron/main/connected-source-runtime.ts:888-968 | a mapping that raises no issue leaves of its source exactly the rows chosen, in order, with their Project, name and label, each under the id it had or else the one its key derives; one that raises an issue changes nothing |
| `ProjectionEffects.ADetachedSourceHasNothing` | electron/main/connected-source-runtime.ts:1000-1022 | a detached source has no row and no binding |
| `ProjectionEffects.ARememberedIdentityIsBound` | electron/main/connected-source-runtime.ts:1079-1100 | an identity that reading leaves as it is is what the plan binds its source to once it is remembered, and no row moves |
| `ProjectionPlan.TheSameAgentKeepsItsId` | electron/main/connected-source-runtime.ts:940-944 | a native Agent has the same Exawatt id whenever it is mapped, whatever was detached or mapped between |
| `ProjectionPlan.RememberedIsReadExactlyWhenStorable` | electron/main/connected-agent-projection-plan.ts:192-209 | remembering an identity leaves an accepted plan accepted if and only if reading would change nothing but that identity's order |
| `ProjectionPlan.ARosterPastTheLimitIsRefused` | electron/main/gateway-identity.ts:80-92 | 501 configured Agents, ordinary and in order, remembered in an empty plan leave one that its own reader refuses |
| `ProjectionPlan.TwoSourcesPassTheLimit` | electron/main/connected-source-runtime.ts:893-968 | 2000 mappings of one source leave a plan that is accepted, and one of a second source makes it one that is refused |
| `ProjectionPlan.ProjectionRuntime.MapAgents` | electron/main/connected-source-runtime.ts:888-968 | an accepted plan takes exactly the lists in which every choice is usable and no Agent is chosen twice; an issue or a read that throws changes nothing; and the rows stay readable, distinct and under derived ids |
| `ProjectionPlan.ProjectionRuntime.RememberBoundIdentity` | electron/main/connected-source-runtime.ts:1079-1100 | the binding becomes the observed identity; an equal one is not written again, and a plan whose read throws stays as it is |
| `NoticeDismissals.NothingIsForgotten` | electron/main/notice-dismissals.ts:85-131 | through unreadable reads and failed writes, what is shown is every change in order on what the file first held, and replaying what is unsaved on the file gives the same |
| `NoticeDismissals.AnUnreadFileIsLeftAlone` | electron/main/notice-dismissals.ts:93-104 | a file that has not been read is never written over |
| `NoticeDismissals.WhatIsSavedIsWhatIsShown` | electron/main/notice-dismissals.ts:110-124 | a write that succeeds leaves nothing unsaved and the file holding what is shown |
| `NoticeDismissals.DismissalIsRecorded` | electron/main/notice-dismissals.ts:69-83 | a dismissal is the newest entry, cut to its limits; what is kept of the others is what a tail of the record holds of them, so the oldest alone go, and none while there is room; at most 32 remain, ids distinct |
| `NoticeDismissals.AForgetTakesExactlyThePrefix` | electron/main/notice-dismissals.ts:69-83 | forgetting a prefix leaves no entry under it and every other one in its order, of what was shown or of what the first good read brings back |
| `NoticeDismissals.AWriteWritesWhatIsShown` | electron/main/notice-dismissals.ts:110-125 | a change that writes puts what it then shows into the file, and one that does not leaves the file |
| `NoticeDismissals.BoundedAfterADismissal` | electron/main/notice-dismissals.ts:78-82 | the record shown just after a dismissal has at most 32 entries, however large the file was |
| `NoticeDismissals.NoticeDismissalStore.MakeChange` | electron/main/notice-dismissals.ts:110-125 | change() is the specification's step on the file and the three variables |
| `NoticeDismissals.NoticeDismissalStore.ForgetNotices` | electron/main/notice-dismissals.ts:145-151 | a prefix nothing starts with is skipped only when the file was read, and what is shown stays every change asked for on what the file first held |
| `RendererPort.RecordedPortMovesExactlyThen` | electron/main/renderer-port.ts:314-386 | a record stays one, and its port moves if and only if it counted two fallbacks and this launch found its port taken, drew a free stable one, served from it and wrote the record |
| `RendererPort.UndecidedLaunchesRewriteNothing` | electron/main/renderer-port.ts:316-335 | an unreadable record or an undecided probe leaves the record and every origin's storage |
| `RendererPort.TheKeptPortIsServed` | electron/main/renderer-port.ts:326-331 | a readable record whose port is free is served, and its fallbacks go back to zero |
| `RendererPort.TheThirdTakenLaunchReHomes` | electron/main/renderer-port.ts:336-353 | of three launches in a row that find the port taken, two keep it and the third moves to a free stable one, marked swept if its sweep succeeds |
| `RendererPort.FirstFreeCandidate` | electron/main/renderer-port.ts:302-312 | a new port is the first free candidate of sixteen, and the OS's own only when none is free |
| `RendererPort.WhatCountsAsARecord` | electron/main/renderer-port.ts:248-284 | a record is a stable port and a count of fallbacks; anything else in the file is damage, and only a missing file is absence |
| `RendererPort.WhichPortIsServed` | electron/main/renderer-port.ts:314-354 | the recorded port while it is free, the OS's own while record or port cannot be judged and for the first two launches that find it taken, and a new one otherwise |
| `RendererPort.WhatALaunchRecords` | electron/main/renderer-port.ts:361-386 | a new stable port, one more fallback, or none any more, when it was written, and otherwise what was recorded |
| `RendererPort.ASweepClearsAndMarks` | electron/main/renderer-port.ts:387-413 | a sweep that is due clears every other packaged origin and marks the record |
| `RendererPort.AFailedClearingMarksNothing` | electron/main/renderer-port.ts:387-413 | a clearing that fails marks nothing |
| `RendererPort.SweepsSpareTheLiveOrigins` | electron/main/renderer-port.ts:387-413 | neither the origin served nor the one recorded loses its storage |
| `RendererPort.SweptRecordsAreSwept` | electron/main/renderer-port.ts:387-413 | over any life, a record marked swept leaves no other packaged origin with storage but strays served since |
| `RendererPort.StraysAreUnrecorded` | electron/main/renderer-port.ts:367-385 | a launch adds a stray if and only if it serves another port than the kept one and leaves the record as it is - temporary, unwritten, or re-homed to no stable port - and does not sweep it itself |
| `RendererPort.TheFlagLiesExactlyThen` | electron/main/renderer-port.ts:361-413 | of an install whose swept mark tells the truth, a launch makes it lie if and only if the record is marked and the launch serves a packaged port other than the recorded one without recording it |
| `RendererPort.AReHomeWithoutAPortLeavesAStray` | electron/main/renderer-port.ts:309-311 | a life of five launches from an install with nothing recorded, the last with all sixteen candidates taken, that ends with a record marked swept and storage on another packaged port |
| `RendererPortPolicy.DeadRendererOrigins` | electron/main/renderer-port.ts:156-162 | the loop gives every port the packaged server could have served from but the kept one, each once |
| `RendererPortPolicy.ChooseStablePort` | electron/main/renderer-port.ts:302-312 | the loop of at most sixteen probes is the specification's choice |
| `RendererPortPolicy.Policy.Serving` | electron/main/renderer-port.ts:361-386 | what is recorded once the server answers |
| `RendererPortPolicy.Policy.SweepDeadOrigins` | electron/main/renderer-port.ts:387-413 | the sweep reads the record again and marks it only after the clearing |
| `RendererPortPolicy.Policy.LaunchOnce` | electron/main/renderer-port.ts:356-414 | allocate, serve and sweep together are the specification's launch, and a record marked swept goes on leaving nothing but strays |
| `RecoveryBudget.ForgettingIsSafe` | electron/main/process-recovery.ts:54 | dropping what no longer counts changes no later answer, as long as the clock does not go back |
| `RecoveryBudget.SpendRefines` | electron/main/process-recovery.ts:46-58 | the pruned list answers each spend as the whole history since the last reset would |
| `RecoveryBudget.SpendsAreBounded` | electron/main/process-recovery.ts:45-63 | over any spends and resets, spends `attempts` apart are at least the window apart |
| `RecoveryBudget.AnySpanHoldsAtMostTheAttempts` | electron/main/process-recovery.ts:42-63 | at most `attempts` spends succeed in any span shorter than the window |
| `RecoveryBudget.SlidingBudget.Spend` | electron/main/process-recovery.ts:52-58 | the closure answers as the whole history since the last reset would, and its list is what still counts of that history |
| `ServerSupervisor.SupervisionHolds` | electron/main/process-recovery.ts:371-465 | over any run never two restarts in flight, and a server that served and is down in an app that is not quitting has a restart in flight or a question open if and only if the operator's own Quit is not still being confirmed and no prompt failed |
| `ServerSupervisor.PromptsThatDoNotFailAreHeard` | electron/main/process-recovery.ts:431-436 | while prompts do not fail, the last of these does not arise |
| `ServerSupervisor.AnAnsweredQuitLeavesTheServer` | electron/main/process-recovery.ts:420-424 | a concrete run, with no failed prompt, to a server that is down, not being restarted and not asked about, while the operator's Quit is being confirmed |
| `ServerSupervisor.NoRestartWhileQuitting` | electron/main/process-recovery.ts:440-463 | no step starts a restart into an app that is past confirming its quit |
| `ServerSupervisor.StepDoes` | electron/main/process-recovery.ts:371-465 | an event starts a restart exactly when the operator asks for one, or the server is to be brought back and the last minute has room for it, and opens a question exactly when it has none; which ones end is as exact |
| `ServerSupervisor.StepLeaves` | electron/main/process-recovery.ts:371-465 | where each event leaves the server and the shutdown, and whether a question went unasked |
| `ServerSupervisor.StepSpends` | electron/main/process-recovery.ts:378-430 | a reload begins a new count with its own restart, a recovery that is not afforded spends nothing, and nothing else spends |
| `ServerSupervisor.RestartsAreBudgeted` | electron/main/process-recovery.ts:378-454 | no span shorter than a minute, between resets, holds more than three restarts |
| `ServerSupervisor.RestartsAreSpends` | electron/main/process-recovery.ts:378-454 | over any run the moments at which restarts began since the last reset are exactly the budget's spends since then |
| `ServerSupervisor.EveryRestartIsListed` | electron/main/process-recovery.ts:371-465 | a step adds its moment to that list exactly when it starts a restart, and only the operator's reload forgets those before it |
| `ServerSupervisor.RendererServerSupervisor.RestartSettles` | electron/main/process-recovery.ts:382-413 | what a restart's end leads to |
| `ServerSupervisor.RendererServerSupervisor.OperatorAnswers` | electron/main/process-recovery.ts:420-430 | quit, or a reload that starts the count again |
| `DiagnosticsLog.CallsAreConserved` | electron/main/diagnostics-log.ts:60-115 | with any clock, calls are forwarded, reported as suppressed, waiting to be reported, or came after exhaustion, and exhaustion is said once |
| `DiagnosticsLog.StepWrites` | electron/main/diagnostics-log.ts:60-114 | exactly which lines an event writes: a call under both caps is forwarded under its own event, the first over the run's cap says so, and what was kept back is reported when its minute is over, its timer rings or the run is exhausted |
| `DiagnosticsLog.StepKeepsBack` | electron/main/diagnostics-log.ts:100-112 | exactly which calls are kept back, when that sets the timer, and whose name the report will bear |
| `DiagnosticsLog.AnySpanForwardsAtMostTwice` | electron/main/diagnostics-log.ts:86-114 | any span shorter than a minute holds at most twice perMinute forwarded lines |
| `DiagnosticsLog.TheLogIsBounded` | electron/main/diagnostics-log.ts:51-115 | with punctual timers the log of a run has at most perRun + perRun / perMinute + 1 lines |
| `DiagnosticsFamilies.FamiliesAreIndependent` | electron/main/diagnostics-log.ts:117-136 | each family's recorder is the one its own events alone would make |
| `DiagnosticsFamilies.BoundedRecorder.Record` | electron/main/diagnostics-log.ts:86-114 | the closure's body is the specification's step, and its calls stay accounted for |
| `DiagnosticsFamilies.FamilyRecorders.Record` | electron/main/diagnostics-log.ts:127-135 | the event goes to its own family's recorder, made when it is first heard of, so the families are those of the run so far |
| `PhaseTracker.TheTrickDecidesExactly` | electron/main/connected-source-diagnostics.ts:166-168 | the expression holds if and only if the count is positive and its low 32 bits are zero or a power of two |
| `PhaseTracker.TheTrickIsRightUpTo32Bits` | electron/main/connected-source-diagnostics.ts:166-168 | up to and including 2^32 it decides powers of two |
| `PhaseTracker.TheTrickIsWrongPast32Bits` | electron/main/connected-source-diagnostics.ts:166-168 | at 2^32 + 1 it does not |
| `PhaseTracker.StepWrites` | electron/main/connected-source-diagnostics.ts:195-251 | the whole effect of an observation: which lines it writes, with which counts and failure, and where it leaves the episode |
| `PhaseTracker.AnEpisodeIsSummarised` | electron/main/connected-source-diagnostics.ts:226-250 | an episode of n attempts reports at the powers of two and once more at its end, the last count being n, and writes each transition once |
| `PhaseTracker.SummaryIsShort` | electron/main/connected-source-diagnostics.ts:180-190 | that is at most the floor of log2 n, and two, retrying lines |
| `PhaseTracker.Tracker.Note` | electron/main/connected-source-diagnostics.ts:195-251 | observe() is the specification's step of that source and touches no other, and every open episode is told by the lines since it opened |
| `PhaseTracker.Tracker.ForgetSource` | electron/main/connected-source-diagnostics.ts:252-255 | a forgotten source is news again |
| `Conversation.ReadTranscript` | electron/main/connected-conversation.ts:142-156 | the pass with a map numbers each row among its identical siblings |
| `Conversation.TextSaysBoth` | electron/main/connected-conversation.ts:92-97 | the hashed text determines the fingerprint and the number |
| `Conversation.TextsAreDistinct` | electron/main/connected-conversation.ts:84-133 | no text is hashed twice for one transcript, however alike its rows are |
| `Conversation.TurnIdsAreDistinct` | electron/main/connected-conversation.ts:84-133 | no two turns of one transcript share an id if and only if the digest tells apart the texts hashed for it |
| `Conversation.SomeDigestServes` | electron/main/connected-conversation.ts:92-97 | for every transcript there is a digest whose every value is short enough to be a cursor and which tells its texts apart: what the paging theorems ask of one |
| `Conversation.AppendingKeepsTheTranscript` | electron/main/connected-conversation.ts:86-91 | turns keep their ids and places when the source appends rows |
| `Conversation.EveryRowHasItsTurn` | electron/main/connected-conversation.ts:99-156 | each row with a voice and words makes one turn, after those of the rows before it, saying its voice, its first four thousand characters, its moment and its run; any other row makes none |
| `Conversation.SiblingsExactlyWhenAlike` | electron/main/connected-conversation.ts:84-97 | rows of one conversation have the same fingerprint if and only if they have one voice, one moment and the same words |
| `ConversationPages.BoundConversation` | electron/main/connected-conversation.ts:166-209 | the page is the longest run of newest turns before the cursor that fits both budgets, and says whether older ones are left |
| `ConversationPages.PagesAreUnique` | electron/main/connected-conversation.ts:189-208 | one window and limit have one page |
| `ConversationPages.PagesAreBounded` | electron/main/connected-conversation.ts:158-165 | a page is within both budgets and is empty only when its window is |
| `ConversationPages.PagingBackRebuildsTheTranscript` | electron/main/connected-conversation.ts:158-209 | once nothing older is left, the pages put together are exactly the transcript, each of them not empty and within both budgets, for ids that serve as cursors and a digest that tells this transcript's texts apart |
| `ConversationPages.PagingBackEnds` | electron/main/connected-conversation.ts:166-209 | under the same condition, however one pages back, it takes no more pages than the transcript has turns |
| `ConversationPages.PagingBackReachesTheOldest` | electron/main/connected-conversation.ts:166-209 | under the same condition, the transcript has a paging back that ends with nothing older left |
| `ConversationPages.AppendedRowsLeaveOlderPages` | electron/main/connected-conversation.ts:182-187 | rows appended between two pages leave what is before a turn that was read as it was |
| `ConversationPages.AStaleCursorReadsTheNewest` | electron/main/connected-conversation.ts:182-187 | a cursor the transcript no longer holds reads from the newest end |
| `JsonComments.StripJsonComments` | electron/main/json-with-comments.ts:13-48 | the loop computes the rendering of the text's pieces |
| `JsonComments.PiecesAreTheText` | electron/main/json-with-comments.ts:13-48 | the strings, comments and characters it is read as are the whole text, in order and without overlap |
| `JsonComments.StrippingKeepsLines` | electron/main/json-with-comments.ts:13-48 | the output has as many newlines as the text |
| `JsonComments.OnlyLineCommentsGo` | electron/main/json-with-comments.ts:13-48 | the output is shorter by the mark in front and the line comments, and by nothing else: block comments keep their length |
| `JsonComments.OutputIsReadClean` | electron/main/json-with-comments.ts:13-48 | reading the output finds the same strings and characters, with white space for what was a comment |
| `JsonComments.StringsKeepTheirLines` | electron/main/json-with-comments.ts:13-48 | every string literal, and every character outside comments that is not blank, stays, on its line |
| `JsonComments.IdentityExactlyWithoutComments` | electron/main/json-with-comments.ts:13-48 | a text is left as it is if and only if it has no comment and no byte-order mark in front |
| `JsonComments.IdempotentExactlyWithoutTwoMarks` | electron/main/json-with-comments.ts:13-48 | stripping twice is stripping once if and only if the text does not begin with two byte-order marks |
| `JsonComments.EachPassTakesAMark` | electron/main/json-with-comments.ts:13-18 | of a text of two marks the first pass leaves one and the second none |

## Left out

Hypotheses of the results above, and what they shut out:

- GatewayOwnership.NoTunnelIsForgotten: assumes that no retry fires while an attempt of its generation still awaits its tunnel; GatewayOwnership.LeaksExactlyWhenOverwritten needs no such assumption.
- GatewayOwnership.NothingStaysOpenAfterDisconnect: assumes the same.
- GatewayHistory.AuthorityNeedsAWideHandshake: assumes at most one write ask or relinquish in flight on each client; GatewayReports.ANarrowedAskIsRecordedExactlyWhen and GatewayGrants.AuthorityNeedsAWriteHandshake need no such assumption.
- GatewayOverlap.OverlappingAsksRecordANarrowedGrant: needs a client that reports the scopes it was granted; `grantedScopes` is an optional field of the session's own interface (electron/main/connected-gateway.ts:200), and packages/core/src/oc/client.ts has none, so with the shipped client a report never narrows.
- GatewayLowering.WriteAuthorityIsKept: excludes a grant recorded beside a pairing of the same generation that is still in flight, because that pairing takes it back.
- GatewayRetrying.WhatIsShownIsRetried: says nothing of a detached session, which can be left saying Reconnecting by an overtaken connect().
- GatewayRecords.TheRecordIsWhatIsObeyed: takes the store's writes of authority and port to succeed; the session obeys its own field either way (electron/main/connected-gateway.ts:1805-1811).
- ConnectedGateway.ConnectedGatewaySession.ScheduleReconnect: leaves out the delays of the ladder; only its count and its single timer are modelled.
- DialogDeadlines.DeadlinesHold: takes timers to ring no later than they are due; time does not pass one that has.
- AtomicJsonFile.DamagedBytesSurvive: takes random file names not to repeat; bytes that somebody else overwrites, or whose marker somebody else removes, are out of the store's hands.
- JsonRecovery.AFailedWriteCleansUp: says nothing of a write whose removal of the temporary fails as well, or of a process that dies; a temporary is then left, which no reader looks at.
- AtomicJsonFile.CommitIsWhole: takes the check for the marker and the asynchronous rename as one step, and the asynchronous reader's read and quarantine as another; the workspace store runs its operations one after another (electron/main/workspace-store.ts:45-78), and what another process does between the two is not modelled.
- SourceRegistry.EveryRunStaysSound: takes the digest of a target to be injective; `SourceRegistry.SomeDigestIsInjective` gives one.
- SourceRegistry.AnAdmittedTokenOverflows: takes encryption to make nothing shorter.
- ProjectionPlan.EveryEditKeepsTheRules: takes mapped source ids and derived ids to be bounded text, as the program's are.
- DiagnosticsLog.TheLogIsBounded: takes the clock not to go back and timers not to ring early.
- RecoveryBudget.SpendsAreBounded: takes the clock not to go back.
- ServerSupervisor.RestartsAreBudgeted: takes the clock not to go back.
- PhaseTracker.AnEpisodeIsSummarised: takes the episode to have at most 2^32 attempts, past which the power-of-two test is wrong.
- Conversation.TurnIdsAreDistinct: says nothing of which digest is used; the program keeps 24 hexadecimal digits of a SHA-256, and its hash reads a lone surrogate as U+FFFD, so two rows that differ only there share an id.
- Conversation.ReadTranscript: takes timestamps to be whole numbers, where the program admits any finite one.
- ConversationPages.PagingBackRebuildsTheTranscript: takes the digest to tell the texts of this transcript apart and its values to be short enough to be cursors, and the transcript not to change between pages; ConversationPages.AppendedRowsLeaveOlderPages says what appending leaves.

Parts of the program the model does not hold:

- SSH, WebSocket, Electron windows, sheets, menus, sockets, process spawning and real timers: they are events and answers of the model, in any order that their contracts allow.
- packages/core/src/oc/client.ts: of the protocol client the model uses that disconnect() rejects a pending connect() without an answer, that connect() after it is a new attempt, and that a completed handshake leaves its issued token and reported scopes on the client.
- Text is a sequence of code points, and lengths and limits count those; the program counts UTF-16 units, which differ outside the basic plane.
- SHA-256, OS encryption, sourceAgentKey and the row parsers of the core package: they are functions or predicates given to the model, with parse keeping fields and refusing transports it cannot read.
- The reads of one observation are one await with one answer, and an asynchronous check followed at once by a rename is one step.
- Listener re-entrancy, thrown listeners, phase listeners and the identity and facts shown beside a snapshot.
- findOwnPendingRequest, approveOwnWriteRequest and the wording of refusals.
- Store calls that throw inside the session, other than a refused credential write; disk and session are joined only through what the session writes.
- Directory creation, file modes, schema and projection version numbers, legacy plans without bindings or with a label equal to the Project, and the JSON text of documents: a document is a value with a text that parses back to it.
- Notice ids that look like array indices, which JavaScript objects list first, and the renderer's own checks of an id.
- The renderer's crash and hang prompts, child process records and test hooks in electron/main/process-recovery.ts.
- How a port is probed: a probe answers free, taken or unknown.
- Redaction, describe functions and pseudonyms in the diagnostics files, and the file the lines are written to.
- Primary conversations, run segments, snapshot revisions and agent views in electron/main/connected-source-runtime.ts and electron/main/connected-conversation.ts.
- IPC registration, the preload script, the composition root, and the auth, analytics and appearance code.
