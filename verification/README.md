# Verified models of the session server

This project models the stateful core of a server that drives agent command lines, and proves
what its protocols and its fast algorithms promise. One Dafny file stands for one protocol or
one family of algorithms:

| file | what it models |
|---|---|
| `LockLease.dfy`, `LockLeaseRuns.dfy` | the storage-root lock: processes racing on one file, with waits, renewals, releases and crashes; what each write to it goes back to |
| `RuntimeLease.dfy`, `RuntimeTakeover.dfy` | the runtime's own lease: publish a claim, look at everybody else's, and judge who is alive; which claims are passed over |
| `Replay.dfy`, `ReplayAsked.dfy` | event numbering, ring, spill, fan-out and the catching up of a late subscriber; what it gets for what it asked |
| `Permissions.dfy`, `PermissionDecisions.dfy` | permission requests: operator answers, standing rules, audit failures, failed writes, refused answers, child exit, turn end; what becomes of each decision |
| `StandingRules.dfy`, `ShellCharacters.dfy` | the standing-rule matcher against the meaning of its grammar; which characters it lets through |
| `LineLog.dfy`, `AuditLog.dfy`, `EventLog.dfy` | backward chunked reading of line files: audit pages, and where a replay starts |
| `OutputWindow.dfy` | the line window of a stored tool output, chunked and whole |
| `Ndjson.dfy`, `WebSocket.dfy`, `WebSocketWire.dfy` | line splitting and WebSocket framing, over streams cut into chunks anyhow; the octets of RFC 6455 |
| `CreateAttempts.dfy`, `Requisitions.dfy`, `RequisitionDecisions.dfy`, `RequisitionSessions.dfy`, `RequisitionFaults.dfy` | the attempt behind each session, the requisition it uses up, what becomes of a decision on one, what a session owes to the one it was asked for, and appends that go wrong half way |
| `Workspaces.dfy` | path containment and the limit on sessions that share a directory |
| `Subscriptions.dfy` | a credit-driven event subscription over the runtime link |
| `Checkpoints.dfy` | the preflight of a restore, what a restore leaves, and what its verification sees |
| `Payroll.dfy` | the fold that bills a session |
| `Bytes.dfy`, `Common.dfy` | byte sequences, lines and options, shared by the rest |

Protocols are state machines: a state, the steps that can happen, and `Reachable` for the states
any number of steps can lead to. One step is one stretch of code between two waits, so results
about `Reachable` states hold over every interleaving. Beside each machine stands the mutable
class of the source, whose methods are proved to take exactly those steps. Algorithms with loops
are methods with the source's loops, proved against a meaning stated without them.

## What was found

Each of these is proved, with a concrete run or input in which it happens and the condition under
which it does not.

- **Standing rules.** The matcher compares characters before it looks for a star, so the rule
  pattern `*` does not match the target `*a`. It agrees with its grammar on the patterns of all
  rules exactly for the targets in which each `*` is the last character or stands before a
  character no wildcard may cross, and for those that break the line, which no rule covers
  (`StandingRules.MatcherExact`). It never accepts too much.
- **Storage-root lock.** Mutual exclusion fails in three ways, and only in these
  (`LockLease.LeaseExact`): a reclaimer whose confirming sample finds no file links its first
  stamp again, so that a third process which sampled that stamp earlier takes a live lock for a
  dead one; a release that overlaps a renewal in flight lets the renewal's write land on the
  next owner's lock; and of two renewals of one process in flight at once, both write the same
  stamp, so that an observer finds a lock unchanged that has just been renewed. The timer starts
  a renewal on every tick, whether or not the last one has returned.
- **Runtime lease.** Its verdict on an owner under another host name rests on the storage-root
  lock. Mutual exclusion holds in every run if and only if that lock has one owner, no running
  process outlives its ownership while it keeps a claim, host names tell machines apart, and no
  claim was written before it named the lock (`RuntimeLease.LeaseExact`). The second condition
  fails at every ordinary shutdown, which gives up the lock (`src/server.ts:227`) before the claim
  (`src/server.ts:240`, `src/agent-console/store/fs.ts:808`): a server on another host may hold the
  lease while the first one, its work done, has yet to exit (`RuntimeLease.LingeringBreaks`).
- **Replay.** A subscriber whose own callback emits while `subscribe` is handing it what the
  ring or the buffer held receives envelopes out of order; one whose callback emits while the
  spill is replayed to it, with a full buffer, is told of a gap at the position before the one
  it has just been given. Delivery is exact in every run if and only if no callback emits into
  the replay, and none into the other hand-over unless ring and buffer hold at most one envelope
  each (`Replay.ReplayExactWhen`).
- **Permissions.** Every request is to be resolved before its turn is reported as ended
  (I9 in `design/20-contract.md:3088`). That holds in every run if and only if the adapter neither
  refuses an answer while its child and the turn are there, nor ends a turn before its child's exit
  (`Permissions.ResolvedByTheEndExactly`); both shipped adapters end turns early, and
  Codex's refuses. A refusal (`no_child`)
  takes the request out of the tables and tells nothing, so the exit's sweep misses it: the sweep
  resolves exactly the requests without a refused answer, and the others never are
  (`Permissions.SweptExactly`, `Permissions.RefusedThenEnded`). Once `turn.ended` is out, the
  provider handle refuses every answer of that turn, so what is unresolved then stays so; an
  adapter that takes answers over into the next turn, as Claude's does, can still resolve what was
  in flight or matched by a rule, behind its turn's end (`Permissions.TurnEndedSplits`,
  `Permissions.CarriedOver`).
- **Requisitions.** Nothing repairs a log that ends within a line, and the next line is appended
  to the fragment and lost with it. Nor are the lines synced, so that a crash of the machine can
  lose one that was acknowledged. Either way a requisition used up is approved again after a
  restart: it is used up for at most one session if and only if no append is cut short and no
  acknowledged line is lost (`RequisitionFaults.UsedOnceExactly`). An append that reports failure
  although its line has landed makes the log tell of two sessions, though only one comes of it; no
  other fault does (`RequisitionFaults.ToldOnceExactly`).
- **Event log.** The backward scan ends lines at newlines, the line reader behind it also at
  U+2028 and U+2029, which `JSON.stringify` does not escape. An event with one of these in its text
  is on disk whole and is never replayed. Indexed replay yields everything if and only if no event
  still needed holds such a break (`EventLog.ReadEventsAfter`, `EventLog.BrokenLineLost`).
- **Restores.** The two checks behind a restore see exactly whether the work-tree is the target,
  but for protected paths and for what the rules of the target hide: a path left behind that those
  ignore goes unnoticed (`Checkpoints.ChecksAreVerified`, `Checkpoints.VerifiedIsRestoredWhen`,
  `Checkpoints.HiddenGoesUnnoticed`).
- **Link subscriptions.** A gap notice of the session core is passed on with the core's
  watermark. It restates what the client has been sent, as the protocol description says
  (`src/agent-console/protocol/PROTOCOL.md:112`), exactly when the resume point was within the
  history, the history is caught up with and no envelope waits (`Subscriptions.Subscription.DeliverGap`,
  `Subscriptions.ForwardedGapOverstates`).
- **Output window.** A window of zero lines from line 1 is the whole blob
  (`OutputWindow.NoLinesIsWhole`); the HTTP edge never asks for one.

## Assumptions

Appends either leave a complete line and succeed, or leave nothing and fail, but for those of
`RequisitionFaults.dfy`, where one cut short leaves a fragment that does not parse. Of a line that
the line reader breaks in two, no piece reads as an event. Crashes are of the process, the
machine's only where `RequisitionFaults.dfy` says so. Git reports truly what it compares and
lists. A file does not change while one scan reads it, and a read returns a full chunk unless the
file ends. Generated identifiers are fresh. Sealed audit cursors are the ones that were given out.
JSON parsing is a partial function from a line's bytes to a record. The audit record of the
permission model carries the request and the rule behind it, which the stored record does not. The
session core hands live envelopes to a link subscription in order, which is what
`Replay.ReplayIsExact` proves of it.

## Model

| member | source | states |
|---|---|---|
| StandingRules.MatchesPattern | src/agent-console/core/index.ts:93-119 | the index-updating loop, for every pattern and target, ends and computes the specified scan |
| StandingRules.GreedySound | src/agent-console/core/index.ts:93-119 | whatever the scan accepts, the grammar allows: each star takes a run free of the forbidden characters |
| StandingRules.GreedyComplete | src/agent-console/core/index.ts:93-119 | going back only to the last star loses no match when the stars of the target are guarded |
| StandingRules.Exchange | src/agent-console/core/index.ts:106-113 | a literal segment moved left to its earliest match never uncovers a forbidden character |
| StandingRules.StarTakenLiterally | src/agent-console/core/index.ts:99-102 | rule `*` and target `*a`: allowed by the grammar, rejected by the scan |
| StandingRules.Misjudged | src/agent-console/core/index.ts:99-102 | every target of one line with an unguarded star is wrongly rejected by the pattern of some rule |
| StandingRules.MatcherExact | src/contract/index.ts:259-268 | scan and grammar agree on the patterns of all rules if and only if the target's stars are guarded or it breaks the line; so always for star-free targets |
| StandingRules.BreakUncovered | src/contract/index.ts:264-267 | no rule covers a target that breaks the line |
| StandingRules.RuleReads | src/agent-console/core/index.ts:78-84 | the texts accepted as rules are those of the grammar, and each has one reading |
| StandingRules.RuleMeaning | src/agent-console/core/index.ts:121-128 | a rule approves only requests of its own tool whose target its pattern covers, and exactly those where stars are guarded or the target breaks the line; the first colon ends the tool name |
| ShellCharacters.NothingSmuggled | src/contract/index.ts:259-268 | whatever target a pattern covers has exactly the pattern's own separators, redirections, substitutions and line breaks, in the same order |
| ShellCharacters.StarMatchesOthers | src/contract/index.ts:264-266 | these are the only characters that a `*` does not match, for the scan as for the grammar |
| ShellCharacters.NameCharacters | src/contract/index.ts:259 | the characters of a tool's name in a rule, one by one |
| LockLease.StepKeepsInv | src/store/index.ts:156-308 | every step of every process, clock tick and crash keeps the timing and ownership invariant |
| LockLease.LeaseSafe | src/store/index.ts:156-308 | for any positive window and interval, any number of processes and any interleaving without the three hazards: one holder at most, and no reclaim, renewal or release touches another's lock |
| LockLease.AbsentConfirmBreaks | src/store/index.ts:232 | a run at 10 s and 2 s in which re-linking after an absent confirming sample gives two holders |
| LockLease.OverlapBreaks | src/server.ts:225-273 | a run in which a release overtakes a renewal in flight and gives two holders |
| LockLease.StackedBreaks | src/server.ts:260-263 | a run in which two renewals of one process in flight write the same stamp, an observer takes the lock for dead, and there are two holders |
| LockLease.LeaseExact | src/store/index.ts:24-25 | at the source's window and interval mutual exclusion holds in every run if and only if none of the three hazards occurs |
| LockLeaseRuns.ReleaseIsOwn | src/store/index.ts:248-277 | in every run, hazards included, a release removes the file only after the same release has read the process's own name there |
| LockLeaseRuns.RenewalIsOwn | src/store/index.ts:285-308 | in every run a renewal writes one more than a stamp of its own that it has read before |
| LockLeaseRuns.ReclaimWasWatched | src/store/index.ts:172-211 | in every run a lock is overwritten only by a process that read it twice, a window apart, with the same owner and stamp |
| LockLeaseRuns.DisplacedLetsGo | src/store/index.ts:258-268 | whoever reads, to renew or release, a file that is gone, unreadable or another's leaves it as it is and holds no more; whoever reads its own name holds on |
| LockLeaseRuns.DisplacedIsDone | src/store/index.ts:281-298 | without overlapping or stacked renewals that is its last act of all |
| LockLeaseRuns.RefusedIsDone | src/store/index.ts:179-235 | a claimant that samples an unreadable lock, one renewed while it was watched, or another's at its confirmation leaves it as it is and does nothing any more |
| LockLeaseRuns.ReleaseGoesThrough | src/store/index.ts:243-277 | a holder with nothing else in flight can free the lock |
| LockLeaseRuns.CorruptStays | src/store/index.ts:179-181 | a lock that cannot be read is never overwritten, removed or held, in any run |
| LockLeaseRuns.FreedIsClaimed | src/store/index.ts:178 | whichever of its samples finds the file gone, a claimant tries the exclusive claim again, which succeeds if nobody else is first |
| LockLeaseRuns.StaleIsReclaimed | src/store/index.ts:203-239 | the lock of a dead owner goes to a process that starts alone, one window and one interval later |
| LockLease.LockClient.constructor | src/store/index.ts:156-160 | a process that is about to claim |
| LockLease.LockClient.TryClaimExclusive | src/store/index.ts:64-85 | the exclusive link creates the lock only where there is none |
| LockLease.LockClient.SampleFirst | src/store/index.ts:172-182 | the first sample: absent retries, corrupt gives up, a lock starts the watch |
| LockLease.LockClient.SampleSecond | src/store/index.ts:184-201 | the second sample, a window later: reclaim only an unchanged lock |
| LockLease.LockClient.Reclaim | src/store/index.ts:203-211 | the unconditional overwrite of a lock judged stale |
| LockLease.LockClient.ConfirmReclaim | src/store/index.ts:213-239 | the confirming sample, an interval later: own it, retry when absent, yield to another |
| LockLease.LockClient.SampleForRenewal | src/store/index.ts:285-299 | a renewal reads first, and stops when the lock is not its own |
| LockLease.LockClient.WriteRenewal | src/store/index.ts:300-308 | the renewal's write raises its own stamp |
| LockLease.LockClient.SampleForRelease | src/store/index.ts:248-268 | a release reads first, and lets go of a lock that is not its own |
| LockLease.LockClient.RemoveLock | src/store/index.ts:269-277 | the release removes the file |
| RuntimeLease.StepKeepsInv | src/agent-console/store/lease.ts:55-92 | of two contenders that look around, one still has the other's claim before it; running owners' claims stay true |
| RuntimeLease.VerdictSound | src/agent-console/store/lease.ts:39-54 | no running owner is judged dead, neither by the process table nor for its generation of the storage-root lock |
| RuntimeLease.LeaseExcludes | src/agent-console/store/lease.ts:26-31 | never two holders, over any number of machines, instances, crashes, restarts and reused pids, in runs without the four hazards |
| RuntimeLease.LingeringBreaks | src/server.ts:225-240 | an owner that has given up or lost the storage-root lock and still runs is displaced by the next one |
| RuntimeLease.TwoOwnersBreak | src/agent-console/store/lease.ts:49-52 | so is one that still holds that lock, when two can |
| RuntimeLease.SharedNameBreaks | src/agent-console/store/lease.ts:40-45 | two machines of one name hold the lease together |
| RuntimeLease.UnversionedBreaks | src/agent-console/store/lease.ts:51 | a running owner whose claim lacks the lock field is displaced |
| RuntimeLease.LeaseExact | src/agent-console/store/lease.ts:39-106 | mutual exclusion in every run if and only if none of the four can happen |
| RuntimeTakeover.TakenOverTheDead | src/agent-console/store/lease.ts:69-85 | in every run, hazards included, whoever takes the lease has listed all claims and found each one gone or its owner shown to be dead |
| RuntimeTakeover.DeadOwnersYield | src/agent-console/store/lease.ts:39-54 | a contender for whom every other claim is shown to be a dead owner's gets the lease, also where a pid is used again |
| RuntimeTakeover.ClaimsOutlive | src/agent-console/store/lease.ts:89-105 | in every run a claim goes away only when its owner releases or refuses, and is there until then, also after a crash |
| RuntimeTakeover.HandsOver | src/agent-console/store/lease.ts:101-105 | once the holder has released the lease, the next contender gets it |
| Replay.StepKeepsInv | src/agent-console/core/index.ts:345-471 | every emit, fan-out, write, subscription, hand-over and return from a callback keeps log and subscribers consistent, under the condition of `ReplayExactWhen` |
| Replay.ReplayIsExact | src/agent-console/core/index.ts:1445-1575 | under that condition each subscriber receives after+1, after+2, … without loss or repeat until it is told of a gap, which restates how far that was; the ring is a suffix of the history, and the spill lacks exactly the write queue |
| Replay.NoFalseGap | src/agent-console/core/index.ts:1547-1561 | replaying a line of an intact history never reports a gap |
| ReplayAsked.AnsweredFrom | src/agent-console/core/index.ts:1471-1497 | over every run, a subscription is answered from the position asked for, or from the end of the history as it was if that is earlier, which is then told before anything else |
| ReplayAsked.AskedIsAnswered | src/agent-console/core/index.ts:1445-1575 | exact delivery measured by the call alone: the history from there, and a first gap that names the last envelope before which nothing is missing |
| ReplayAsked.GapOnlyWhen | src/agent-console/core/index.ts:1519-1557 | a gap is told only if the spill cannot be read, or if more than the high-water mark of events came since the subscription |
| ReplayAsked.GapEndsReplay | src/agent-console/core/index.ts:1546-1558 | over every run, whose replay is under way has been told of no gap |
| ReplayAsked.TellingIsACall | src/agent-console/core/index.ts:1475-1479 | telling of a gap within `subscribe` is a call: the subscriber may emit, and nothing else happens until it returns |
| ReplayAsked.CloseEnds | src/agent-console/core/index.ts:1574 | a subscriber that has closed is handed nothing more, in any run |
| ReplayAsked.WritesLand | src/agent-console/core/index.ts:372-394 | whatever is queued can be written, in order, until the spill is the history |
| ReplayAsked.CatchesUp | src/agent-console/core/index.ts:1544-1572 | from every reachable state a subscriber that waits for its replay can be served to the end, and is then live with the whole history from where it asked |
| ReplayAsked.RingServesRecent | src/agent-console/store/fs.ts:591-620 | the ring is as full as it may be, and serves every position it reaches back to |
| Replay.EmittingIntoHandOver | src/agent-console/core/index.ts:1485-1491 | a run in which a callback that emits while the ring is flushed to it receives events out of order |
| Replay.EmittingIntoBuffer | src/agent-console/core/index.ts:1563-1572 | the same through the buffer |
| Replay.EmittingIntoReplay | src/agent-console/core/index.ts:1519-1523 | for every buffer size, a run in which a callback that emits from a replayed line is told of a gap before that line |
| Replay.CaughtUpFromSpill | src/agent-console/core/index.ts:1494-1572 | a run in which a rehydrated session serves history and later events from the spill and the buffer, and takes the subscriber live |
| Replay.ReplayExactWhen | src/agent-console/core/index.ts:307-320 | for every ring and buffer size: exact delivery in every run if and only if no callback emits into a replay of the spill, nor into a flush where ring or buffer can hold two envelopes |
| Replay.SessionEntry.constructor | src/agent-console/core/index.ts:685-700 | an entry rehydrated from its spill |
| Replay.SessionEntry.PushRing | src/agent-console/store/fs.ts:591-601 | the ring keeps the newest envelopes within its capacity |
| Replay.SessionEntry.ReadRingAfter | src/agent-console/store/fs.ts:604-620 | the ring answers exactly when it still holds everything behind `after` |
| Replay.SessionEntry.EmitEvent | src/agent-console/core/index.ts:345-371 | an emit takes the next number, enters the ring and queues its append in one step |
| Replay.SessionEntry.DeliverToAll | src/agent-console/core/index.ts:310-320 | fan-out finishes one event before the next, nested emits included |
| Replay.SessionEntry.LandWrite | src/agent-console/core/index.ts:372-394 | appends land in emission order |
| Replay.SessionEntry.Register | src/agent-console/core/index.ts:1475-1536 | a subscription reads the ring and registers in one step, or starts buffering |
| Replay.SessionEntry.ReplayLine | src/agent-console/core/index.ts:1546-1559 | one spilled line is handed over, with the watermark as it was, or a gap is told at the watermark |
| Replay.SessionEntry.CallReturns | src/agent-console/core/index.ts:1559-1560 | the watermark moves once the callback has returned |
| Replay.SessionEntry.FlushOne | src/agent-console/core/index.ts:1563-1572 | buffered envelopes behind the watermark are handed over once |
| Permissions.StepKeepsInv | src/agent-console/core/index.ts:1585-1724 | every step, answers refused by the adapter included, keeps the tables of pending and in-flight requests and the lawfulness of the trace |
| Permissions.ResolvedOnce | src/agent-console/core/index.ts:1190-1226 | over any interleaving a request is resolved at most once, and only after it was asked |
| Permissions.AllowIsRecorded | src/agent-console/core/index.ts:1585-1626 | no allow reaches the adapter before a durable record of that decision |
| Permissions.AutomaticAllowIsTraced | src/agent-console/core/index.ts:1696-1724 | an automatic allow is preceded by the recorded answer that granted its rule, by the rule being held, and by a request of the rule's tool whose target the rule's pattern covers |
| Permissions.ExitResolvesAll | src/agent-console/core/index.ts:1816-1850 | when an exit is handled while its turn is live, a request is resolved before any `turn.ended` of that turn if and only if no answer to it was refused before |
| Permissions.SweptExactly | src/agent-console/core/index.ts:1634-1677 | after the step that handles the exit a request of the turn is resolved if and only if no answer to it was refused; otherwise it never is |
| Permissions.SweepCancels | src/agent-console/core/index.ts:1827-1846 | that step cancels each request then pending or in flight |
| Permissions.RefusedForever | src/agent-console/core/index.ts:1646-1677 | a request whose answer was refused is resolved in no continuation |
| Permissions.RefusedThenEnded | src/agent-console/providers/codex-cli/index.ts:560-563 | a run in which an interrupt makes the adapter refuse an answer whose record is being written, and the request is never resolved |
| Permissions.ResolvedByTheEndExactly | design/20-contract.md:3088 | every request is resolved before its turn is reported as ended, in every run, if and only if the adapter neither refuses while child and turn are there nor ends a turn early |
| Permissions.TurnEndedSplits | src/agent-console/providers/adapter-session.ts:26-30 | a request not resolved by `turn.ended` never is, if answers are bound to their turn; else exactly those that were refused, or still pending with no rule matched |
| Permissions.EndedLands | src/agent-console/providers/claude-cli/index.ts:650-653 | with an adapter that takes answers over, a request in flight or matched by a rule at `turn.ended` is resolved in some continuation through the next turn |
| Permissions.OverForever | src/agent-console/providers/adapter-session.ts:63-64 | with one that does not, a request of a turn that is over stays unresolved |
| Permissions.CarriedOver | src/agent-console/providers/legacy.ts:18-30 | a run in which an answer is taken by the next turn's child and resolved behind its turn's end |
| Permissions.EndsUnresolved | src/agent-console/core/index.ts:2001-2006 | a run that ends with a request pending, never to be resolved |
| Permissions.OrphanForever | src/agent-console/core/index.ts:2001-2005 | a request left pending with no rule matched stays unresolved with any adapter |
| Permissions.RuleGoesThrough | src/agent-console/core/index.ts:1696-1724 | for every adapter, rule and request it matches there is a run in which the granted rule approves it, recorded, told and resolved |
| PermissionDecisions.AllowIsDecided | src/agent-console/core/index.ts:1201-1222 | in every run, whatever was told or resolved as an allow was allowed by the operator's own answer, or taken by a standing rule and not answered by the operator at all |
| PermissionDecisions.AnswerStands | src/agent-console/core/index.ts:1585-1680 | record, adapter and resolution carry the decision and scope the operator gave, but for a failed record or a lost child, which deny |
| PermissionDecisions.AnswerArrives | src/agent-console/core/index.ts:1613-1626 | a durable answer the adapter takes ends in just that decision, told and resolved as answered; its rule, if any, is held from then on |
| PermissionDecisions.DealtWithOnce | src/agent-console/core/index.ts:1594-1598 | what follows a request's audit record happens once, in every run |
| PermissionDecisions.NothingAskedBetween | src/agent-console/core/index.ts:1816-1912 | once the child has exited nothing is asked until a turn is handed to the adapter |
| PermissionDecisions.RuleNeedsTarget | src/agent-console/core/index.ts:1161-1184 | a rule is only ever granted with an allow, for a request that was reported with a target |
| PermissionDecisions.EarliestRuleTakes | src/agent-console/core/index.ts:1907-1911 | a request is taken by a rule exactly if one held matches, and then by the one held longest |
| Permissions.PermissionDesk.constructor | src/agent-console/core/index.ts:912-928 | a session without turn, rules or requests |
| Permissions.PermissionDesk.Started | src/agent-console/core/index.ts:1013 | a turn starts with no request outstanding |
| Permissions.PermissionDesk.Sent | src/agent-console/providers/adapter-session.ts:40-57 | the adapter is handed the turn, and takes answers from then on |
| Permissions.PermissionDesk.OnRequest | src/agent-console/core/index.ts:1886-1912 | a request becomes pending, and the first matching rule is noted |
| Permissions.PermissionDesk.AnswerPermission | src/agent-console/core/index.ts:1163-1226 | an answer takes a pending request in flight, once; a rule is refused where it does not parse, comes with a denial, or the request has no target |
| Permissions.PermissionDesk.ResolvePreapproved | src/agent-console/core/index.ts:1696-1724 | a matching rule takes the request in flight unless it is gone |
| Permissions.PermissionDesk.AppendSettled | src/agent-console/core/index.ts:1594-1598 | the audit append succeeds or fails |
| Permissions.PermissionDesk.FinalizeResolution | src/agent-console/core/index.ts:1595-1680 | the decision goes to the adapter and is resolved; a failed record denies, a failed write cancels, a refusal ends it without a word, a swept request is left alone |
| Permissions.PermissionDesk.OnExited | src/agent-console/core/index.ts:1816-1850 | the sweep over pending and in-flight requests |
| Permissions.PermissionDesk.OnTurnEnded | src/agent-console/core/index.ts:2001-2006 | the slot is cleared, its requests are not resolved, and the adapter takes no more answers |
| OutputWindow.ScanWhole | src/agent-console/store/memory.ts:12-35 | start, end and total of the window by newline counts |
| OutputWindow.PassBuffer | src/agent-console/store/fs.ts:146-158 | the newlines of one chunk, with the early stop |
| OutputWindow.ScanChunked | src/agent-console/store/fs.ts:114-182 | the same answer for any chunk size of at least one byte |
| OutputWindow.ScansAgree | src/agent-console/store/memory.ts:7-11 | the answer is unique, so both scans return the same |
| OutputWindow.WindowIsLineSlice | src/agent-console/store/fs.ts:105-113 | the window is the slice of whole lines [fromLine, fromLine + lineCount); the total is there exactly when no line is left behind it |
| OutputWindow.NoLinesIsWhole | src/agent-console/store/fs.ts:130-131 | zero lines from line 1 give the whole blob |
| LineLog.LineStarts | src/agent-console/store/fs.ts:284-295 | the line starts of a buffer |
| LineLog.LineOfBuffer | src/agent-console/store/fs.ts:297-307 | between two of them lies one line of the file, at its own offset |
| LineLog.LinesSplit | src/agent-console/store/fs.ts:276-283 | reading up to a cut and on from it reads every line once |
| LineLog.AppendLine | src/agent-console/store/fs.ts:184-197 | an append adds one line and moves none |
| LineLog.LinesKept | src/agent-console/store/fs.ts:410-414 | a growing file keeps the lines before an offset |
| AuditLog.WalkBuffer | src/agent-console/store/fs.ts:297-330 | one buffer, last line first, with the line held over to the next chunk |
| AuditLog.ReadAuditPage | src/agent-console/store/fs.ts:214-343 | for any chunk size and any torn or blank lines: the page by limit and scan budget, newest first, and the cursor to go on from; cursors past the end are refused |
| AuditLog.ReadMemoryPage | src/agent-console/store/memory.ts:113-124 | the same page on a list of records |
| AuditLog.PagesAgree | src/agent-console/store/memory.ts:113-124 | for a log of valid lines both readers return the same records and cursors that name the same line |
| AuditLog.AppendStores | src/agent-console/store/fs.ts:184-197 | appending a record keeps the log one of valid lines |
| AuditLog.NextIsOlder | src/agent-console/store/fs.ts:318-330 | a cursor leads strictly back, to the start of a line |
| AuditLog.PageThenOlder | src/agent-console/store/fs.ts:324-330 | a page and all that is older make up the whole, without loss or overlap |
| AuditLog.AppendKeepsPage | src/agent-console/store/fs.ts:410-414 | records appended since do not disturb an older cursor |
| AuditLog.FollowCursors | src/agent-console/store/fs.ts:220-227 | following cursors to null ends, and yields every matching record once, newest first |
| AuditLog.PageIsBounded | src/agent-console/store/fs.ts:220-229 | a page holds at most the limit and at most the cap, reads at most the cap of lines, and is short only if the log or that budget is spent |
| AuditLog.MemoryPageIsBounded | src/agent-console/store/memory.ts:113-124 | the same of the in-memory reader |
| EventLog.ScanBuffer | src/agent-console/store/fs.ts:377-401 | one buffer of the backward scan, unreadable lines skipped |
| EventLog.LocateForwardStart | src/agent-console/store/fs.ts:346-407 | the offset crosses no line, what stands right before it has been seen, and every readable line behind it has not |
| EventLog.SkippingIsSafe | src/agent-console/store/fs.ts:418-425 | with increasing numbers nothing before the offset is still needed |
| EventLog.ReadForward | src/agent-console/store/fs.ts:538-557 | reading on from an offset, in lines as the runtime's reader ends them, blank and unreadable ones skipped |
| EventLog.ReaderDropsBroken | src/agent-console/store/fs.ts:542-556 | the reader gives exactly the lines that no carriage return or Unicode line separator breaks |
| EventLog.NothingDroppedWhen | src/agent-console/store/fs.ts:542-557 | nothing is missing exactly when no needed line is broken |
| EventLog.BrokenLineLost | src/agent-console/store/fs.ts:542-553 | a needed event with such a break is never given |
| EventLog.ReadEventsAfter | src/agent-console/store/fs.ts:530-571 | for any chunk size, indexed replay equals filtering the lines without a break inside; it equals filtering the whole file if and only if no event still needed has one |
| Ndjson.TooLongIsARun | src/agent-console/providers/ndjson.ts:22-26 | overflow means more than `cap` bytes without a newline |
| Ndjson.OverflowStays | src/agent-console/providers/ndjson.ts:18 | once overflowed, later bytes change nothing |
| Ndjson.WrittenComesBack | src/agent-console/providers/ndjson.ts:12-14 | lines written with a newline each come back unchanged |
| Ndjson.NdjsonSplitter.constructor | src/agent-console/providers/ndjson.ts:5-9 | an empty splitter |
| Ndjson.NdjsonSplitter.Append | src/agent-console/providers/ndjson.ts:27-32 | the buffer grows within the cap and keeps its bytes |
| Ndjson.NdjsonSplitter.Take | src/agent-console/providers/ndjson.ts:20-32 | bytes up to a newline join the unfinished line, or overflow it |
| Ndjson.NdjsonSplitter.Finish | src/agent-console/providers/ndjson.ts:34-38 | a newline gives out the line, or drops a blank one |
| Ndjson.NdjsonSplitter.Push | src/agent-console/providers/ndjson.ts:15-41 | whatever the chunk: lines given out, buffer and overflow depend on the bytes so far alone |
| Ndjson.SplitStream | src/agent-console/providers/ndjson.ts:12-41 | any chunking gives the same lines, and one overflow report exactly when a line is too long |
| WebSocket.MaskedTwice | src/edge/ws/index.ts:131-132 | unmasking undoes masking (RFC 6455, section 5.3) |
| WebSocket.WireReadsBack | src/edge/ws/index.ts:95-140 | a masked client frame in any of the three length forms, followed by anything, is read back whole (RFC 6455, section 5.2) |
| WebSocket.ReadIsWire | src/edge/ws/index.ts:95-140 | whatever is taken off the front is the wire form of the frame returned |
| WebSocket.EncodeFrame | src/edge/ws/index.ts:143-160 | header with the shortest length form, in network byte order, and payload |
| WebSocket.ParseHead | src/edge/ws/index.ts:99-118 | the header at an offset |
| WebSocket.ParseFrame | src/edge/ws/index.ts:98-137 | the frame at an offset: incomplete, malformed or whole |
| WebSocket.ParseFrames | src/edge/ws/index.ts:95-140 | all whole frames and the bytes they use; throws exactly on a malformed one |
| WebSocket.FeedFrames | src/edge/ws/index.ts:394-407 | later bytes are read as if the frames taken so far had not been there; a broken stream stays broken |
| WebSocket.StreamReadsBack | src/edge/ws/index.ts:95-140 | a sequence of client frames is read back as sent |
| WebSocket.UnreadWithinFrame | src/edge/ws/index.ts:394-407 | wherever a client's stream is cut, no more than one frame is left unread |
| WebSocketWire.MaskIsExclusiveOr | src/edge/ws/index.ts:132-134 | each bit of an unmasked octet is set exactly where payload and key octet differ (RFC 6455, section 5.3) |
| WebSocketWire.FirstCountsMost | src/edge/ws/index.ts:109-117 | lengths are in network byte order |
| WebSocketWire.PrefixIncomplete | src/edge/ws/index.ts:98-130 | nothing short of a whole client frame is read or refused |
| WebSocketWire.UnmaskedRefused | src/edge/ws/index.ts:126-131 | a frame without a mask breaks the stream once it is there whole, and not before (RFC 6455, section 5.1) |
| WebSocketWire.MaskedHello | src/edge/ws/index.ts:95-140 | the masked example of RFC 6455, section 5.7, is read as its text |
| WebSocketWire.ServerHeaders | src/edge/ws/index.ts:143-160 | the unmasked examples of RFC 6455, section 5.7, for all three length forms |
| WebSocket.Receiver.constructor | src/edge/ws/index.ts:65 | nothing buffered |
| WebSocket.Receiver.OnData | src/edge/ws/index.ts:394-407 | frames handed on and bytes kept depend on the stream alone; protocol error exactly when the stream is broken; too much buffered closes |
| WebSocket.Receive | src/edge/ws/index.ts:394-407 | a client's frames come out as sent, however many and however the reads cut them, if a read and one frame fit the buffer |
| CreateAttempts.StepKeepsInv | src/agent-console/core/create-attempts.ts:14-77 | every call and continuation keeps what the trace tells of an attempt |
| CreateAttempts.EffectsAreSafe | src/agent-console/core/create-attempts.ts:34-73 | prepare and commit effects run at most once, commit only after a successful prepare, and abort never beside a successful commit |
| CreateAttempts.AbortedIsFreed | src/agent-console/core/create-attempts.ts:43-48 | an aborted attempt has run its abort effect after its prepare effect |
| CreateAttempts.AbortAborts | src/agent-console/core/create-attempts.ts:43-73 | once every call of `abort` has returned, the attempt is aborted and its abort effect has run, unless the session was committed; so it is after a failed effect, and for good |
| CreateAttempts.AbortsAreFew | src/agent-console/core/create-attempts.ts:64-73 | the abort effect runs at most twice, however often `abort` is called, and at most once while the preparation has not ended |
| CreateAttempts.WaitersReturn | src/agent-console/core/create-attempts.ts:66 | once the commit has ended, every `abort` that waits for it returns |
| CreateAttempts.CommitGoesThrough | src/agent-console/core/create-attempts.ts:34-63 | an attempt can be prepared and committed |
| CreateAttempts.HostAttempts.Prepare | src/agent-console/core/create-attempts.ts:34-42 | `prepare` up to its wait |
| CreateAttempts.HostAttempts.PreparationThen | src/agent-console/core/create-attempts.ts:42-47 | its continuation |
| CreateAttempts.HostAttempts.Commit | src/agent-console/core/create-attempts.ts:50-56 | `commit` up to its wait |
| CreateAttempts.HostAttempts.CommittingThen | src/agent-console/core/create-attempts.ts:56-61 | its continuation |
| CreateAttempts.HostAttempts.Abort | src/agent-console/core/create-attempts.ts:64-73 | `abort`, which waits for a running commit |
| Requisitions.StepKeepsInv | src/records/index.ts:123-185 | every decision, claim, commit, abort, append and crash keeps registry, locks, claims and log consistent |
| Requisitions.ConsumedOnce | src/records/index.ts:153-179 | with appends that land and succeed or fail and leave nothing: a requisition is used up by at most one session, crashes and restarts included |
| Requisitions.ReservedForOne | src/session-manager/index.ts:42-62 | a reservation belongs to exactly one claim of an attempt that may still succeed |
| Requisitions.FailedCreateFrees | src/session-manager/index.ts:58-61 | a failed or aborted create holds no requisition, and an approved one nobody holds can be claimed |
| Requisitions.IdleLogIsRegistry | src/agent-console/process/append-log.ts:80-124 | with no append out, the latest lines of the log are the registry |
| Requisitions.OnlyForward | src/records/index.ts:123-179 | states only go from open to approved to consumed, or from open to rejected |
| Requisitions.SessionUsesItUp | src/session-manager/index.ts:42-62 | any requisition can be raised, approved, claimed and used up, with nothing left reserved |
| RequisitionDecisions.DecidedAsAsked | src/records/index.ts:123-151 | over every run, crashes and restarts included: what is approved or used up was approved by the operator it names, what is rejected was rejected by the one it names, in registry and log; only approved ones are claimed |
| RequisitionDecisions.RejectedForGood | src/records/index.ts:153-168 | a rejected requisition stays rejected and is never claimed or reserved, through any run |
| RequisitionDecisions.DecisionTakes | src/records/index.ts:136-151 | an accepted decision takes effect as it was asked, in the name of who asked, once its append has gone through |
| RequisitionSessions.CreatedOnItsRequisition | src/session-manager/index.ts:42-62 | over every run, a session created for a requisition has used up that one, in its own name; a prepared create holds the one it was asked for, an aborted one none |
| RequisitionSessions.CreatedWithout | src/session-manager/index.ts:44-46 | a create that names no requisition claims none, in any run |
| RequisitionSessions.CreatedWasAsked | src/session-manager/index.ts:42-50 | every session that exists was asked for |
| RequisitionSessions.CreateWithoutGoesThrough | src/session-manager/index.ts:42-57 | such a create comes through whatever else is going on, and leaves registry, log, appends and claims alone |
| RequisitionSessions.AbortGivesBack | src/session-manager/index.ts:58-61 | aborting a create that is not being committed frees its requisition at once, for anybody to claim |
| Requisitions.FoldLatestById | src/agent-console/process/append-log.ts:88-124 | the latest line of each id wins; dropped lines are counted, and the first is named |
| Requisitions.CreateHost.constructor | src/records/index.ts:64-70 | a registry folded from its log |
| Requisitions.CreateHost.Decide | src/records/index.ts:123-143 | a decision up to its append, refused unless the requisition is open and undecided |
| Requisitions.CreateHost.Claim | src/records/index.ts:153-168 | a claim reserves an approved requisition that is not reserved |
| Requisitions.CreateHost.HostPrepares | src/session-manager/index.ts:44-50 | the prepare effect claims in the turn it is called in |
| Requisitions.CreateHost.HostCommits | src/records/index.ts:170-174 | the commit effect up to its append |
| Requisitions.CreateHost.HostAborts | src/session-manager/index.ts:58-61 | the abort effect frees what was claimed |
| Requisitions.CreateHost.AppendSettled | src/records/index.ts:141-150 | only an append that succeeded changes the registry |
| Requisitions.CreateHost.Drive | src/agent-console/core/create-attempts.ts:34-73 | an attempt's step together with the effects it calls |
| Requisitions.CreateHost.HostCommitThen | src/session-manager/index.ts:54-56 | the claim is dropped once its session is attached |
| RequisitionFaults.StepKeepsCore | src/records/index.ts:141-179 | registry, locks, claims and attempts stay consistent through misreported, torn and lost appends |
| RequisitionFaults.UsedOnceExactly | design/20-contract.md:988 | one session at most for each requisition, over all failures, crashes and restarts, if and only if no append is cut short and no acknowledged line is lost |
| RequisitionFaults.TearUsesTwice | src/agent-console/process/append-log.ts:105-118 | a run in which a line joined to a fragment is dropped and its requisition used up a second time |
| RequisitionFaults.ForgetUsesTwice | src/store/index.ts:132-134 | a run in which a crash of the machine loses an acknowledged line and its requisition is used up a second time |
| RequisitionFaults.ToldOnceExactly | src/agent-console/process/append-log.ts:58-63 | whatever is torn or lost, the log tells of one session at most for each requisition if and only if no append that landed reports failure |
| RequisitionFaults.PrefixTells | src/agent-console/process/append-log.ts:88-124 | if a log tells of a requisition's use as it should, so does every first part of it |
| RequisitionFaults.MisreportTellsTwo | src/agent-console/process/append-log.ts:61-63 | a run in which it tells of two |
| Workspaces.InsideIsBeneath | src/agent-console/core/workspaces/jail.ts:34-40 | the string test is containment in the directory tree |
| Workspaces.SharedIsOverlap | src/agent-console/core/workspaces/jail.ts:50-52 | two directories around the same directory overlap |
| Workspaces.CliqueThroughNew | src/agent-console/core/workspaces/allocator.ts:29-33 | a set of pairwise overlapping reservations through a new one is bounded by what it was checked against |
| Workspaces.ReserveKeeps | src/agent-console/core/workspaces/allocator.ts:27-36 | admitting a reservation keeps the limit on every such set, and exclusive ones alone |
| Workspaces.TouchKeeps | src/agent-console/core/workspaces/allocator.ts:37-50 | so does changing one in place |
| Workspaces.ReleaseKeeps | src/agent-console/core/workspaces/allocator.ts:51 | so does releasing one |
| Workspaces.RecoverKeeps | src/agent-console/core/workspaces/allocator.ts:22-26 | restored claims are exempt; those that come first leave the limit and exclusivity whole, a late one leaves them to the reservations let in |
| Workspaces.DirectoryIsLimited | src/agent-console/core/workspaces/allocator.ts:13-17 | a directory lies within at most `max` reservations, unless all of them were restored; after a late restore that goes for those let in |
| Workspaces.ExclusiveIsAlone | src/agent-console/core/workspaces/allocator.ts:39-49 | no directory lies within an exclusive reservation and another one; after a late restore that goes for those let in |
| Workspaces.WorkspaceAllocator.constructor | src/agent-console/core/workspaces/allocator.ts:15-20 | an empty allocator |
| Workspaces.WorkspaceAllocator.RecoverPending | src/agent-console/core/workspaces/allocator.ts:22-26 | a restored claim, at any time |
| Workspaces.WorkspaceAllocator.Reserve | src/agent-console/core/workspaces/allocator.ts:27-36 | refused exactly when an overlapping reservation is exclusive or too many overlap |
| Workspaces.WorkspaceAllocator.Activate | src/agent-console/core/workspaces/allocator.ts:37 | pending becomes live |
| Workspaces.WorkspaceAllocator.Reassign | src/agent-console/core/workspaces/allocator.ts:38 | the owner changes |
| Workspaces.WorkspaceAllocator.Exclusive | src/agent-console/core/workspaces/allocator.ts:39-49 | granted exactly when nothing else overlaps and it is not exclusive already |
| Workspaces.WorkspaceAllocator.ReleaseExclusive | src/agent-console/core/workspaces/allocator.ts:50 | exclusive no more |
| Workspaces.WorkspaceAllocator.Release | src/agent-console/core/workspaces/allocator.ts:51 | the reservation is gone |
| Subscriptions.Subscription.constructor | src/agent-console/runtime/protocol/subscriptions.ts:12-22 | a subscription catching up to the snapshot, or live at once |
| Subscriptions.Subscription.Retire | src/agent-console/runtime/protocol/subscriptions.ts:26-30 | nothing is kept |
| Subscriptions.Subscription.Gap | src/agent-console/runtime/protocol/subscriptions.ts:44-52 | the subscription ends with a notice at its watermark, or the stuck link ends |
| Subscriptions.Subscription.Encode | src/agent-console/runtime/protocol/subscriptions.ts:53-60 | an item is counted, or the budget ends the subscription with a notice at its watermark, or a stuck or overlong link ends |
| Subscriptions.Subscription.Deliver | src/agent-console/runtime/protocol/subscriptions.ts:87-98 | live events queue behind the history, in order and within the budget; what does not fit ends the subscription with a notice at its watermark |
| Subscriptions.Subscription.DeliverGap | src/agent-console/runtime/protocol/subscriptions.ts:89-93 | a core notice restates the sent watermark exactly when nothing is outstanding |
| Subscriptions.Subscription.Next | src/agent-console/runtime/protocol/subscriptions.ts:31-43 | one credit buys one item, and the byte count follows |
| Subscriptions.Subscription.Pump | src/agent-console/runtime/protocol/writer.ts:48-71 | every envelope written is the one behind the watermark, across the switch from replay to live; credit granted is credit left plus items taken |
| Subscriptions.Subscription.ReadReturns | src/agent-console/runtime/protocol/subscriptions.ts:61-86 | only the record behind the watermark is held; anything else is a gap told at the watermark, but for a session that is gone |
| Subscriptions.Subscription.AddCredit | src/agent-console/runtime/protocol/subscriptions.ts:113-117 | credit adds up, unless it would leave the safe integers |
| Subscriptions.ForwardedGapOverstates | src/agent-console/runtime/protocol/subscriptions.ts:89-93 | a client that was sent nothing is told watermark 5 |
| Checkpoints.Collisions | src/agent-console/extensions/checkpoints/index.ts:213-229 | exactly the protected entries equal to, above or beneath a path of the target, in order |
| Checkpoints.HoldsBeneath | src/agent-console/extensions/checkpoints/index.ts:218-221 | the directories above the target's paths |
| Checkpoints.HeldAbove | src/agent-console/extensions/checkpoints/index.ts:224-225 | whether the target holds a file above a path |
| Checkpoints.PreflightProtects | src/agent-console/extensions/checkpoints/index.ts:307-318 | a restore that passes leaves exactly the target and every protected path untouched, if `read-tree` does its work |
| Checkpoints.CollisionLoses | src/agent-console/extensions/checkpoints/index.ts:307-310 | a colliding file would not survive |
| Checkpoints.RestoreIsRecoverable | src/agent-console/extensions/checkpoints/index.ts:320-335 | restoring the safety checkpoint passes the preflight and brings the workspace back |
| Checkpoints.SortOthers | src/agent-console/extensions/checkpoints/index.ts:354-368 | of the listed paths those no protected entry holds, and the entries that hold the others, in order |
| Checkpoints.ChecksAreVerified | src/agent-console/extensions/checkpoints/index.ts:338-365 | both checks pass exactly when the work-tree holds the target and beside it only what is protected or hidden by the target's rules |
| Checkpoints.GoodRestoreIsVerified | src/agent-console/extensions/checkpoints/index.ts:335-365 | a `read-tree` that did its work passes them |
| Checkpoints.VerifiedIsRestoredWhen | src/agent-console/extensions/checkpoints/index.ts:338-345 | a verified work-tree is the target and the protected paths as they were if and only if those were not touched and nothing hidden was left behind |
| Checkpoints.HiddenGoesUnnoticed | src/agent-console/extensions/checkpoints/index.ts:343-350 | a path left behind that passes both checks |
| Checkpoints.Workspace.Restore | src/agent-console/extensions/checkpoints/index.ts:287-378 | which step refuses when; a refusal changes nothing; a restore is reported as done exactly when all steps ran and what `read-tree` left is verified, leaves the target in the index, and lists the exposed entries |
| Payroll.FoldPayroll | src/session-manager/payroll.ts:11-139 | burn is what the log reports and the sum of the rows; for bracketed turns idle time and turns make up the session's life; a restart drops one interval exactly when it came between turns |
| Payroll.UsageTells | src/session-manager/payroll.ts:85-97 | usage goes to the burn and to its turn's row alone |
| Payroll.StartTime | src/session-manager/payroll.ts:50-55 | a turn's start closes the idle interval |
| Payroll.EndTime | src/session-manager/payroll.ts:56-67 | a turn's end opens the next |

## Left out

- HTTP routing, server-sent events, identity, configuration and error tables: validation that one branch shows.
- The browser client and the design prototype: rendering.
- Process spawning, the adapters' record mapping and git itself: foreign calls, which are steps that may fail.
- The failure path of `emit` when an append to the spill fails, and a turn whose `send` fails: the turn is not bracketed then.
- File operations of the storage-root lock that fail halfway: a failed write is a step that changes nothing.
- Replay.ReplayIsExact: does not model frames (`message.delta`), which carry no number, nor a subscriber that closes before it is live or subscribes from a callback.
- The order of callbacks within one fan-out: a fan-out is one step, and what callbacks emit follows it.
- RuntimeLease.LeaseExcludes: is stated on values only; the scan over the directory interleaves with other processes at every file, so it is steps of a state machine and not one loop.
- How a process table is read: a reading does not overlook a process of its own machine, and may fail to give a creation time.
- Sealing of audit cursors, JSON text and UTF-8 decoding: a cursor is an offset, a line is bytes.
- EventLog.ReadForward: does not model a piece of a broken line that is a JSON value by itself, such as `null`, at which the source's reader gives up.
- A torn last line that a later append would join, in the event log, the audit log and the reviews: their files end on a line boundary.
- WebSocket close, ping and fragmentation replies: what is done with a frame once it is read.
- Replay.NoFalseGap: speaks of lines the reader gives; which it gives is `EventLog.ReadEventsAfter`.
- Standing rules over the size cap, and reviews: easy members beside the ones modelled.
- Requisitions.ConsumedOnce: is stated for appends that land whole or not at all; the others are in `RequisitionFaults.dfy`.
- Calls back into an attempt from its own effects, and the time-outs around a remote host.
- Windows paths and case folding in `Workspaces.dfy`.
- The writer's round robin between subscriptions and its burst limit for control messages: fairness, not safety; one subscription is modelled against any schedule.
- Checkpoints.Workspace.Restore: does not model the report of unreached paths, nor the trailing slash of a listed embedded repository.
- Currency cost and remaining budget of the payroll view: one multiplication and one subtraction.
