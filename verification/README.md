# Verified models of the automation hub's coordination core

This project models the parts of the automation hub backend in which several parties
share state, retry, or fail halfway, and proves what those parts keep:

| files | what they model |
|---|---|
| `RegistryTypes`, `RegistryStore`, `RegistryRules`, `RegistryService`, `RegistryHistory`, `RegistryMeaning`, `RegistryClients`, `RegistryReplies`, `RegistryExample` | the agent registry: optimistic concurrency over agents, lifecycle ledger, assignments and outcomes |
| `Dispatch` | idempotent dispatch of messages over a store of claims |
| `Delegation`, `ConflictLifecycle` | the delegation and conflict state machines with their logs |
| `Conflicts` | conflict detection over delegations and decisions |
| `Text`, `Digest`, `Sorting` | canonical texts and lists, message digests, and facts about sorting |
| `Monitor`, `Composer` | the bounded observation history and the composition of one monitor run |
| `Ambient`, `AmbientScan`, `AmbientRuns`, `Ranking` | ambient opportunities: accept, dismiss, scan, rank, prune |
| `Runtime` | the running-task table, stops, the proof gate and the bounded writer |

Objects that the program updates in place are classes here (`MemoryRepository`, `Service`,
`DispatchStore`, `Registry`, `Sink`, `LimitedWriter`, `ScanTable`), and each of their methods is
proved equal to a function from old state to new. Protocols are state machines whose steps are
the single calls to a store, a transport or another service, so that clients interleave between
them. Theorems are about every run of such a machine.

## Assumptions

- Revisions and counters are natural numbers: they do not wrap at 64 bits.
- Floating-point numbers are reals, and the decimal weights of the opportunity score are exact.
- SHA-256 and name-based UUIDs are injective: a digest is represented by the value it covers
  (an assignment's ID by its request, an observation's digest by its content), or is a function
  assumed injective where a lemma says so.
- Clock readings, generated IDs, answers of other services and failures of saves are inputs.
  A clock reading may be any instant; nothing assumes that clocks advance.
- Instants are integers and 0 is the unset instant. Lengths count characters, not bytes.
- Lower-casing maps ASCII letters only. Regular expressions for secrets, URL credentials and
  UUIDs are parameters, so each theorem holds whatever they accept.
- Versions are already parsed. Enumerated fields hold only their known values, except where an
  unknown value is a constructor of its own.

## Where the code does less than one might expect

Each of these is a lemma that says exactly when the program keeps the expectation:

- Assignments are not atomic: they list and pick first and reserve later. A reservation is refused,
  although the whole assignment is refused in no store, exactly when the listed agent has changed:
  `RegistryReplies.ReservationRefusedIff`, with a run in `RegistryExample.ReservationCanBeRefused` in which
  every store of the call would have granted the request. A grant names the agent that was best at the
  listing (`RegistryReplies.FreshGrantWasBest`) and is what the whole assignment would do at its own instant
  exactly when that agent is still the best: `RegistryReplies.GrantIsWholeIff`, with a run in
  `RegistryExample.GrantCanBeOvertaken`. A request sent twice at once can be told that nobody is eligible
  although at every instant of the call somebody was, or the request was assigned:
  `RegistryReplies.ListingAnswerIsAtomicIff`, with a run in `RegistryExample.RequestCanBeMissed`. Every
  other answer of the registry is right at an instant of its call: `RegistryReplies.EveryReplyIsRight`.
- The in-memory observation history keeps 4096 records, so a late retry of a composition can read
  a shorter list, send another request under its old key and be refused: `Monitor.CompositionStableIff`,
  `Composer.RetryConflictsIff`, with a run in `Composer.RetryCanConflict`.
- A message key whose claim is left with nobody to complete it is never delivered again:
  `Dispatch.KeyIsLostIff`, with a run in `Dispatch.KeyCanBeLost`, and `Dispatch.StepBlocksIff` names the
  store faults that do it. A duplicate's
  receipt names the message that was delivered, which need not be the caller's:
  `Dispatch.DuplicateNamesDeliveredMessage`, with a run in `Dispatch.DuplicateCanNameAnotherMessage`.
- A stop that arrives after the deadline of a call does not force a blocked result:
  `Runtime.StopForcesBlockedIff`, with a run in `Runtime.StopCanComeTooLate`. A stop for an unregistered runtime whose name contains a colon can
  reach another runtime's work: `Runtime.StopReachesNamedTaskIffNoColon`, with a run in
  `Runtime.StopCanReachAnotherTask`.
- An agent registered with active assignments keeps those slots taken for ever:
  `RegistryHistory.SlotConservation`.
- Leaving a conflict for review, or dismissing it, stores whatever strategy text came along:
  `ConflictLifecycle.UncheckedStrategyIsKept`.
- Agent names are joined with hyphens, so "a b" and "a-b" are one sender, while "-b" is only itself:
  `Digest.IdKeepsNameIff`.

## Model

| member | source | states |
|---|---|---|
| `RegistryTypes.OwnerKeyInjective` | backend/internal/agentregistry/repository.go:195-197 | the joined key determines owner and ID when IDs hold no NUL |
| `RegistryStore.MemoryRepository.Create` | backend/internal/agentregistry/repository.go:38-47 | a new key is added, an existing one refused and nothing else changed |
| `RegistryStore.MemoryRepository.Get` | backend/internal/agentregistry/repository.go:49-57 | the stored record or not found |
| `RegistryStore.MemoryRepository.List` | backend/internal/agentregistry/repository.go:59-70 | exactly the owner's agents, each once, in strict ID order |
| `RegistryStore.MemoryRepository.CompareAndSwap` | backend/internal/agentregistry/repository.go:72-88 | replaces the record only from the expected revision to the next |
| `RegistryStore.MemoryRepository.RecordTransition` | backend/internal/agentregistry/repository.go:90-113 | record and ledger entry change together, or neither, when revision, from and to all agree |
| `RegistryStore.MemoryRepository.CreateAssignment` | backend/internal/agentregistry/repository.go:125-150 | stores the assignment and takes one slot under the listed revision and below the maximum |
| `RegistryStore.MemoryRepository.GetAssignment` | backend/internal/agentregistry/repository.go:152-160 | the stored assignment or not found |
| `RegistryStore.MemoryRepository.RecordAssignmentOutcome` | backend/internal/agentregistry/repository.go:162-193 | stores one outcome per assignment together with its agent's next revision |
| `RegistryRules.NormalizeUniqueLoop` | backend/internal/agentregistry/validation.go:321-340 | the map-and-sort loop computes the canonical list, whatever order the map is read in |
| `RegistryRules.NormalizeUniqueKeepsFirstSpellings` | backend/internal/agentregistry/validation.go:321-340 | the result is strictly sorted by folded key and holds exactly the first spelling of each non-blank key |
| `RegistryRules.NormalizingKeepsGrants` | backend/internal/agentregistry/service.go:455-466 | normalising an allowlist changes no grant of a non-blank requirement |
| `RegistryRules.RoundScoreStaysWithin` | backend/internal/agentregistry/service.go:523-525 | rounding is idempotent and keeps bounds that are multiples of a ten-thousandth |
| `RegistryRules.ComponentBounds` | backend/internal/agentregistry/service.go:336-357 | each component of an eligible agent's score lies within its weight |
| `RegistryRules.EligibleScoreBounds` | backend/internal/agentregistry/service.go:289-372 | every eligible score lies in [0.4555, 1] and is already rounded, so the persistence check on scores cannot reject one |
| `RegistryRules.ScoreFollowsMerit` | backend/internal/agentregistry/service.go:336-371 | an agent that is in no respect the worse choice never scores lower, and scores higher once clearly better in authority fit, health, success rate, free slots, cost or locality |
| `RegistryRules.ScoreGap` | backend/internal/agentregistry/service.go:336-371 | how many ninetieths of the score each merit is worth, up to a hundredth |
| `RegistryService.Select` | backend/internal/agentregistry/service.go:176-192 | none if and only if no listed agent is eligible, otherwise a listed one that no eligible one beats |
| `RegistryService.BestIsUnique` | backend/internal/agentregistry/service.go:186-192 | two listings of the same agents select the same agent, whatever their order |
| `RegistryService.Service.Register` | backend/internal/agentregistry/service.go:33-48 | equals one whole execution of the command on the store |
| `RegistryService.Service.Update` | backend/internal/agentregistry/service.go:67-94 | equals one whole execution of the command on the store; `RegistryMeaning.SavedSays` says what that keeps and takes over |
| `RegistryService.Service.Transition` | backend/internal/agentregistry/service.go:96-129 | equals one whole execution of the command on the store, with its two clock readings |
| `RegistryService.Service.ApplyOutcome` | backend/internal/agentregistry/service.go:252-275 | the in-place evidence update yields the next record: one slot less, counters, streak and running mean |
| `RegistryService.Service.RecordAssignmentOutcome` | backend/internal/agentregistry/service.go:225-287 | equals one whole execution of the command on the store |
| `RegistryService.Service.Assign` | backend/internal/agentregistry/service.go:138-213 | undisturbed, equals the whole assignment: the request keeps its assignment or the best eligible agent is picked and reserved |
| `RegistryService.BestPickIff` | backend/internal/agentregistry/service.go:176-192 | an assignment picks nobody if and only if nobody of its owner is eligible |
| `RegistryService.BestIsPicked` | backend/internal/agentregistry/service.go:186-192 | an agent that no eligible one beats is the pick, so the whole assignment is a function of the store |
| `RegistryService.GrantIsNotOutclassed` | backend/internal/agentregistry/service.go:176-212 | no eligible agent of the owner that is in no respect worse is clearly better than the granted one or before it by ID: of two alike, the fuller by a hundredth of its slots is never granted |
| `RegistryHistory.ExecEffect` | backend/internal/agentregistry/repository.go:72-193 | every execution is one of six legal effects on the store, and its reply says which record it wrote |
| `RegistryHistory.RunKeepsInvariant` | backend/internal/agentregistry/repository.go:72-193 | every run keeps all agents valid, histories exact, ledgers derived from them and slot counts equal to the stored assignments and outcomes |
| `RegistryHistory.HistoriesAreGapFree` | backend/internal/agentregistry/repository.go:72-193 | each agent's versions are revisions 1 to n, each the exact effect of one command on the one before |
| `RegistryHistory.EqualRevisionSameRecord` | backend/internal/agentregistry/repository.go:72-88 | revisions only grow and one revision of an agent is one record |
| `RegistryHistory.LedgerReplays` | backend/internal/agentregistry/service.go:96-129 | the ledger is a chain of allowed edges with increasing revisions from registered to the current state, each backed by the versions it names, and enabled is entered only ready |
| `RegistryHistory.QuarantineLeavesThroughDisabled` | backend/internal/agentregistry/service.go:389-404 | after quarantine the ledger enters disabled before it enters enabled again |
| `RegistryHistory.SlotConservation` | backend/internal/agentregistry/repository.go:125-193 | active slots are those of the registration plus one for each assignment without an outcome, and never exceed the maximum |
| `RegistryHistory.OpenAssignmentHasSlot` | backend/internal/agentregistry/service.go:252-256 | the guard on freed slots never refuses an assignment that has no outcome |
| `RegistryHistory.RunningMean` | backend/internal/agentregistry/service.go:257-264 | mean times count grows by exactly the new latency |
| `RegistryHistory.EvidenceIsFoldOfOutcomes` | backend/internal/agentregistry/service.go:257-278 | counts, failure streak, mean and last instant are the fold of the committed outcomes, one for each finished assignment |
| `RegistryHistory.WithOutcomeStaysValid` | backend/internal/agentregistry/validation.go:88-93 | an outcome never breaks the reliability clauses of validation |
| `RegistryHistory.OutcomeValidIffTimesAre` | backend/internal/agentregistry/service.go:276-278 | the final validation of an outcome objects if and only if the timestamps do |
| `RegistryHistory.OpenOutcomeAcceptedIff` | backend/internal/agentregistry/service.go:225-287 | an open assignment takes its outcome if and only if revision, latency and timestamps are right |
| `RegistryMeaning.NormalizedIsConfigured` | backend/internal/agentregistry/service.go:502-511 | a normalised profile says what was wanted: same names, versions, ceilings and entries up to case, blanks and order |
| `RegistryMeaning.NormalizedIsTidy` | backend/internal/agentregistry/service.go:502-511 | normalised lists are trimmed, in key order and without repetition, and capabilities are in ID order |
| `RegistryMeaning.EveryVersionSays` | backend/internal/agentregistry/service.go:33-129 | in every run each version differs from the one before exactly as its command says, field by field: registration, update, transition, outcome or reservation |
| `RegistryMeaning.SavedSays` | backend/internal/agentregistry/service.go:33-129 | a saved reply is the stored record of the named agent at the expected revision, is what the command says of it, and no other record changes |
| `RegistryMeaning.TransitionAnswers` | backend/internal/agentregistry/service.go:96-129 | a transition is saved if and only if revision, reason, lifecycle edge and, for enabling, health and capacity are right; each refusal has its own condition and changes nothing |
| `RegistryMeaning.UpdateAnswers` | backend/internal/agentregistry/service.go:67-94 | an update is not found or out of date exactly when no record or another revision is there, and a refused one changes nothing |
| `RegistryMeaning.AgentAcceptedIff` | backend/internal/agentregistry/validation.go:23-104 | a record is valid if and only if it keeps the listed limits, holds no secret, and its times are set, in order and not in the future |
| `RegistryMeaning.RequestAcceptedIff` | backend/internal/agentregistry/validation.go:106-163 | a request is valid if and only if it is owned, named, asks for capabilities each once in ordered versions, and stays within its policy |
| `RegistryMeaning.EveryVersionIsWellKept` | backend/internal/agentregistry/service.go:33-129 | in every run every stored version keeps the limits of the contract and holds no secret |
| `RegistryMeaning.EligibleIffFits` | backend/internal/agentregistry/service.go:295-334 | an agent is eligible if and only if lifecycle, health, capacity, type, ceilings, runtime, versions, capabilities, tools, data, folders, locality and cost fit the request |
| `RegistryMeaning.FolderSpelling` | backend/internal/agentregistry/service.go:489-491 | case, back slashes, outer blanks and one last slash are all that a folder loses |
| `RegistryMeaning.ExplanationAddsUp` | backend/internal/agentregistry/service.go:349-371 | the explanation names each part with its own merit, and the parts add up to the score |
| `RegistryMeaning.AssignAnswers` | backend/internal/agentregistry/service.go:138-213 | a valid unassigned request is told that nobody is eligible if and only if nobody fits it; otherwise one that fits and is not outclassed is granted exactly what was asked for and loses one slot |
| `RegistryClients.CommitIsAtomic` | backend/internal/agentregistry/service.go:67-129 | a commit computed from an earlier read does what the whole command would do at the commit, a stale one being refused either way |
| `RegistryClients.ReserveIsWholeIff` | backend/internal/agentregistry/service.go:206-212 | for an unassigned request, reserving the listed agent is the whole assignment of that instant, in store and reply, if and only if the agent is still the best choice |
| `RegistryClients.RunKeepsInvariant` | backend/internal/agentregistry/repository.go:72-193 | in every interleaving what a client has read is still what the store holds under that revision |
| `RegistryClients.InterleavedRunsAreAtomic` | backend/internal/agentregistry/service.go:67-287 | the store is the one that the logged commands leave when run one after the other, with the logged replies; an assignment is logged whole or, marked by a choice, as the reservation of a listed agent |
| `RegistryReplies.EveryReplyIsAccounted` | backend/internal/agentregistry/service.go:67-287 | each client is at work on what it began or answered once, for that very command and its clock readings: by one entry of the log within its call, by a late answer, or as missed, which only befalls assignments told of a conflict or that nobody is eligible |
| `RegistryReplies.EveryReplyIsRight` | backend/internal/agentregistry/service.go:67-287 | a client's answer is that of its whole command at an instant of its call if and only if it is not counted as missed |
| `RegistryReplies.RealTimeOrder` | backend/internal/agentregistry/service.go:67-287 | a client that began after another had returned has its place in the log no earlier |
| `RegistryClients.RecordsAreNeverReused` | backend/internal/agentregistry/repository.go:72-193 | in every interleaving revisions grow, equal revisions are equal records, and assignments are write-once |
| `RegistryClients.InterleavedHistoriesAreGapFree` | backend/internal/agentregistry/repository.go:72-193 | in every interleaving an agent's versions are revisions 1 to n without a gap |
| `RegistryClients.InterleavedRunsKeepSlots` | backend/internal/agentregistry/repository.go:125-193 | in every interleaving an open assignment keeps a slot and the maximum holds |
| `RegistryClients.RepeatedAssignReservesNothing` | backend/internal/agentregistry/service.go:147-165 | once a request is granted every later execution returns the same assignment and leaves the store alone |
| `RegistryClients.FreshGrantIsEligible` | backend/internal/agentregistry/service.go:167-212 | at the instant of a grant, not only in the listing, the agent is eligible and below its maximum, and exactly one slot is taken |
| `RegistryClients.FreshGrantIsWithinCeilings` | backend/internal/agentregistry/service.go:193-205 | a grant names the listed revision, what was asked for, within agent and policy ceilings at that instant, and its score persists |
| `RegistryReplies.ListingAnswerIsAtomicIff` | backend/internal/agentregistry/service.go:138-185 | the answer that nobody is eligible is that of some instant of the call if and only if at one of them nobody was eligible and the request was unassigned; only otherwise is the client missed |
| `RegistryReplies.ReservationRefusedIff` | backend/internal/agentregistry/service.go:206-212 | a reservation answers a conflict if and only if the request is unassigned and the listed agent has another revision, fetches if and only if it is assigned, and grants otherwise; a refused client is missed and changes nothing |
| `RegistryReplies.ConflictsAreMissed` | backend/internal/agentregistry/service.go:138-213 | in every run each assignment that is answered with a conflict is missed |
| `RegistryReplies.FreshGrantWasBest` | backend/internal/agentregistry/service.go:176-212 | every fresh grant is the answer of the whole assignment at an instant of its call, at which the granted agent was the best of all |
| `RegistryReplies.FreshGrantWasFittest` | backend/internal/agentregistry/service.go:176-212 | at an instant of its call no eligible agent of the owner outclassed the granted one |
| `RegistryReplies.FreshGrantFits` | backend/internal/agentregistry/service.go:176-212 | at the grant itself the agent fits the request in every field, and what is granted is what was asked for |
| `RegistryReplies.InterleavedVersionsSay` | backend/internal/agentregistry/service.go:33-287 | in every interleaving each version differs from the one before exactly as its command says |
| `RegistryReplies.GrantIsWholeIff` | backend/internal/agentregistry/service.go:176-212 | at the grant itself the whole assignment would do the same, in store and reply, if and only if the agent is still the best choice |
| `RegistryExample.RequestCanBeMissed` | backend/internal/agentregistry/service.go:157-185 | a reachable run in which two clients begin the same request, one is granted it, and the other is missed |
| `RegistryExample.ReservationCanBeRefused` | backend/internal/agentregistry/repository.go:125-150 | a reachable run in which a request is refused with a conflict although at every instant of its call the whole assignment would have been granted |
| `RegistryExample.GrantCanBeOvertaken` | backend/internal/agentregistry/service.go:167-212 | a reachable run with a grant that the whole assignment would not make at that instant |
| `Dispatch.DispatchStore.Begin` | backend/internal/agentcoordination/coordinator_test.go:50-69 | a free key is claimed, other content conflicts, equal content is a duplicate with its receipt if there is one |
| `Dispatch.DispatchStore.Complete` | backend/internal/agentcoordination/coordinator_test.go:71-85 | stores the receipt if and only if the key is claimed with this content |
| `Dispatch.DispatchStore.Abandon` | backend/internal/agentcoordination/coordinator_test.go:87-97 | frees the key if and only if it is claimed with this content and not completed |
| `Dispatch.RunDispatch` | backend/internal/agentcoordination/coordinator.go:46-112 | undisturbed, each outcome has its own condition on key, content and answer: delivered if and only if a free key is answered with the message's ID, its correlation ID and a set time, and only then is the store changed |
| `Dispatch.RunKeepsInvariant` | backend/internal/agentcoordination/coordinator.go:46-112 | with any dispatchers and store faults: exclusive claims, calls paid for by claims, receipts earned and agreeing |
| `Dispatch.OneHolderAndBoundedCalls` | backend/internal/agentcoordination/coordinator.go:58-112 | at most one dispatcher holds a key, and its transport calls number at most one more than its released claims |
| `Dispatch.ReturnedReceiptsAgree` | backend/internal/agentcoordination/coordinator.go:67-75 | receipts returned for one key agree up to the duplicate flag |
| `Dispatch.ReturnedReceiptFits` | backend/internal/agentcoordination/coordinator.go:70-112 | every returned receipt carries ID and correlation of the message delivered last under the key and a set time, and a delivered one those of the caller |
| `Dispatch.FittingAnswerIsDelivered` | backend/internal/agentcoordination/coordinator.go:79-112 | an answer with the message's IDs and a set time ends delivered with the next completion that works, and any other answer releases the claim |
| `Dispatch.ClaimAnswers` | backend/internal/agentcoordination/coordinator.go:66-77 | what a claim is told, by what is stored under its key |
| `Dispatch.ContentIsFixedWhileClaimed` | backend/internal/agentcoordination/types.go:195-202 | while a key stays claimed only the claimed content reaches the transport |
| `Dispatch.UnheldKeyIsFinal` | backend/internal/agentcoordination/coordinator.go:67-112 | a stored key that nobody holds never changes and is never delivered again |
| `Dispatch.KeyIsLostIff` | backend/internal/agentcoordination/coordinator.go:58-112 | every attempt at a content is told for ever that there is no receipt if and only if its key is claimed under it and held by nobody |
| `Dispatch.KeyCanBeLost` | backend/internal/agentcoordination/coordinator.go:58-66 | a reachable state in which a key is lost through one claim whose answer was lost |
| `Dispatch.StepBlocksIff` | backend/internal/agentcoordination/coordinator.go:58-112 | the only steps that bring a key there are a claim whose answer is lost and a completion or release that never took effect |
| `Dispatch.LostCompleteBlocksKey` | backend/internal/agentcoordination/coordinator.go:103-110 | after a completion every later attempt at the content finds no receipt if and only if it never took effect |
| `Dispatch.DuplicateNamesDeliveredMessage` | backend/internal/agentcoordination/coordinator.go:67-75 | a duplicate's receipt names the caller's message if and only if the message delivered last under the key has its ID |
| `Dispatch.DuplicateForeseen` | backend/internal/agentcoordination/coordinator.go:67-75 | the same, told from the store before asking |
| `Dispatch.DuplicateCanNameAnotherMessage` | backend/internal/agentcoordination/coordinator.go:67-75 | a run in which it names another |
| `Delegation.ValidateClaims` | backend/internal/agentcoordination/validation.go:201-289 | the duplicate-claim loop accepts exactly named, accessible and pairwise different resources |
| `Delegation.TransitionSteps` | backend/internal/agentcoordination/state.go:17-69 | an accepted transition adds one signed event along an allowed edge and leaves the contract alone |
| `Delegation.TransitionGates` | backend/internal/agentcoordination/state.go:37-54 | an accepted transition keeps the approval gate and the completion rule |
| `Delegation.TransitionAcceptedIff` | backend/internal/agentcoordination/state.go:17-109 | a transition is accepted and logged if and only if its edge exists, it is signed with a reason in time, and evidence and approval are there where asked for |
| `Delegation.LogFollowsEdges` | backend/internal/agentcoordination/state.go:71-109 | in every run each new entry of the log follows an edge of the lifecycle |
| `Delegation.DelegationAcceptedIff` | backend/internal/agentcoordination/validation.go:201-289 | a delegation is valid if and only if identities, agents, texts, mode, authority, approval, times, claims and secrets are as listed |
| `Delegation.RunExtendsLog` | backend/internal/agentcoordination/state.go:17-109 | after any run the log is the old one followed by a signed path of allowed edges to the current status |
| `Delegation.TerminalAbsorbs` | backend/internal/agentcoordination/state.go:71-109 | terminal states absorb |
| `Delegation.RunKeepsGates` | backend/internal/agentcoordination/state.go:37-54 | a run that enters gated execution leaves an approval reference, one that completes leaves canonical evidence |
| `Delegation.RunKeepsValidity` | backend/internal/agentcoordination/validation.go:201-289 | a valid envelope stays valid until due if and only if the last accepted reason, the last approval reference given and the completion evidence given pass the scan once normalised |
| `Delegation.SecretOnlyWhereWritten` | backend/internal/agentcoordination/validation.go:471-489 | a clean envelope becomes unclean exactly through the texts a transition writes |
| `ConflictLifecycle.RunReplaysLog` | backend/internal/agentcoordination/conflict.go:99-144 | state and resolution are the replay of an append-only log of allowed, signed edges |
| `ConflictLifecycle.TransitionAcceptedIff` | backend/internal/agentcoordination/conflict.go:99-144 | a transition is accepted and logged if and only if its edge exists, it is signed with a rationale in time, and its strategy is the one its target demands |
| `ConflictLifecycle.LogFollowsEdges` | backend/internal/agentcoordination/conflict.go:323-351 | in every run each entry of the log follows an edge of the lifecycle |
| `ConflictLifecycle.ResolvedOnlyAfterProposal` | backend/internal/agentcoordination/conflict.go:323-350 | a conflict is resolved only out of a proposal or an escalation, and then with a known strategy |
| `ConflictLifecycle.SettledIsFinal` | backend/internal/agentcoordination/conflict.go:323-350 | resolved and dismissed absorb |
| `ConflictLifecycle.UncheckedStrategyIsKept` | backend/internal/agentcoordination/conflict.go:117-142 | the stored resolution stays a known strategy if and only if none or a known one was given |
| `ConflictLifecycle.UnknownStrategyCanStay` | backend/internal/agentcoordination/conflict.go:139-141 | a dismissal that stores an unknown strategy |
| `Conflicts.ResourceIdsIdentify` | backend/internal/agentcoordination/conflict.go:255-290 | equal conflict IDs mean the same two delegations over the same resource |
| `Conflicts.DecisionIdsIdentify` | backend/internal/agentcoordination/conflict.go:255-290 | equal conflict IDs mean the same two messages |
| `Conflicts.KindsHaveDifferentIds` | backend/internal/agentcoordination/conflict.go:255-290 | a contention and a contradiction never share an ID |
| `Conflicts.PairConflicts` | backend/internal/agentcoordination/conflict.go:158-184 | exactly the clashes between two delegations |
| `Conflicts.FindResourceConflicts` | backend/internal/agentcoordination/conflict.go:146-188 | every clash of every pair and nothing else |
| `Conflicts.FindDecisionConflicts` | backend/internal/agentcoordination/conflict.go:190-230 | every contradiction between answers to one question and nothing else |
| `Conflicts.Deduplicate` | backend/internal/agentcoordination/conflict.go:311-321 | one conflict for each ID |
| `Conflicts.DetectConflicts` | backend/internal/agentcoordination/conflict.go:86-97 | on well-identified inputs exactly the contentions and contradictions, each once, in strict ID order |
| `Conflicts.ValidatedIsPlain` | backend/internal/agentcoordination/validation.go:201-289 | where the UUID library accepts canonical text only, a validated delegation has a plain ID and distinct claims |
| `Conflicts.ReportIsOrderIndependent` | backend/internal/agentcoordination/conflict.go:86-97 | the report depends on which records are given, not on their order or repetition |
| `Conflicts.OneEntryPerClash` | backend/internal/agentcoordination/conflict.go:146-188 | one entry for each pair and resource, naming both delegates |
| `Conflicts.ContentionReportedIff` | backend/internal/agentcoordination/conflict.go:146-188 | two delegations and a resource are reported if and only if both are open, overlap and their claims exclude each other; grave if and only if both write alone |
| `Conflicts.ContradictionReportedIff` | backend/internal/agentcoordination/conflict.go:190-227 | two messages are reported if and only if they are decisions of different senders on one question with different schema or data |
| `Conflicts.SilenceMeansAgreement` | backend/internal/agentcoordination/conflict.go:190-253 | a question answered by two senders with nothing reported has one decision digest |
| `Text.FieldsOfJoin` | backend/internal/agentcoordination/validation.go:495-497 | joining words and splitting again is the identity |
| `Text.NormalizeTextIsCanonical` | backend/internal/agentcoordination/validation.go:495-497 | idempotent, and equal exactly for texts with the same words |
| `Text.NormalizeTextEmptyIffBlank` | backend/internal/agentcoordination/validation.go:495-497 | empty exactly for blank texts |
| `Text.NormalizeStrings` | backend/internal/agentcoordination/validation.go:499-515 | the loop with its seen-set computes the canonical list |
| `Text.CanonicalStringsListsTexts` | backend/internal/agentcoordination/validation.go:499-515 | strictly sorted, and exactly the normal forms of the non-blank values |
| `Text.CanonicalStringsEqualIffSameTexts` | backend/internal/agentcoordination/validation.go:499-515 | equal if and only if the sets of non-blank normal forms are equal |
| `Text.CanonicalStringsIdempotent` | backend/internal/agentcoordination/validation.go:499-515 | idempotent |
| `Digest.DigestsAgreeIffSameMeaning` | backend/internal/agentcoordination/validation.go:159-199 | two messages have one digest if and only if their normalised envelopes mean the same |
| `Digest.IdKeepsNameIff` | backend/internal/agentcoordination/validation.go:491-493 | an ID stands for one name only if and only if it has no hyphen between two of its characters |
| `Digest.HyphenFreeNamesKeepTheirWords` | backend/internal/agentcoordination/validation.go:491-493 | names without hyphens have equal IDs if and only if they have the same words, up to case |
| `Monitor.ListObservationsAt` | backend/internal/ambientmonitor/repository.go:489-518 | the newest records up to the cutoff, newest first, up to the limit |
| `Monitor.AppendAllKeepsNewest` | backend/internal/ambientmonitor/repository.go:600-606 | after any appends the history is the newest 4096 records |
| `Monitor.HistoryKeepsLast` | backend/internal/ambientmonitor/repository.go:600-606 | the history is all that was appended or its last 4096 records |
| `Monitor.ReplayStableIff` | backend/internal/ambientmonitor/repository.go:489-606 | a later read up to the cutoff gives the same list if and only if no record up to the cutoff was evicted |
| `Monitor.ComposeObservations` | backend/internal/ambientmonitor/composer.go:283-323 | accepts exactly intact histories and returns the sorted relevant observations and whether the current one is there |
| `Monitor.AcceptedIff` | backend/internal/ambientmonitor/composer.go:289-309 | a history is accepted if and only if each record is well formed, of this monitor and outcome, has the digest of its content and shares neither ID nor digest |
| `Monitor.CompositionListsRelevant` | backend/internal/ambientmonitor/composer.go:310-321 | strictly sorted by time and ID, and exactly the relevant records |
| `Monitor.CompositionSays` | backend/internal/ambientmonitor/composer.go:310-343 | the list shows field by field exactly the observations made within the window and known by the finish, by time and then ID |
| `Monitor.CompositionDependsOnFinishedHistory` | backend/internal/ambientmonitor/composer.go:283-323 | the list is a function of the set of records present when the run finished |
| `Monitor.ReorderingIsHarmless` | backend/internal/ambientmonitor/composer.go:283-323 | permuting a history changes neither acceptance nor result |
| `Monitor.UndisturbedComposes` | backend/internal/ambientmonitor/composer.go:283-323 | as long as no relevant record is evicted or appended, a later read composes the same list, intact or not |
| `Monitor.CompositionStableIff` | backend/internal/ambientmonitor/composer.go:283-323 | over intact records a later read composes the same list if and only if no relevant record was evicted and none that is still there was appended |
| `Composer.KeysIsolateRuns` | backend/internal/ambientmonitor/composer.go:430-432 | keys are equal exactly for runs with equal digests |
| `Composer.Sink.Write` | backend/internal/outcomeevaluation/repository.go:267-292 | first write under a key is stored, an equal one answered with it, a different one refused |
| `Composer.Compose` | backend/internal/ambientmonitor/composer.go:127-209 | refuses exactly unacceptable histories without writing, and success leaves three linked entries, the signal reflecting the stored evaluation |
| `Composer.LoopReflects` | backend/internal/ambientmonitor/composer.go:345-376 | the signal is resolved if and only if the outcome is achieved, of high risk if and only if it regresses, due at the end of an open window, and takes the rest from run and evaluation |
| `Composer.SignalsFollowStates` | backend/internal/ambientmonitor/composer.go:378-391 | impact and urgency grow strictly from achieved over on track, insufficient evidence and review to regression, and confidence falls from definite states over review to missing evidence |
| `Composer.RetriesAreExactReplays` | backend/internal/ambientmonitor/composer.go:127-209 | over any failing attempts and later observations outside the run, all requests made under a key are identical, arrived or not, no attempt meets a conflict and other runs are untouched |
| `Composer.SuccessLeavesOneOfEach` | backend/internal/ambientmonitor/composer.go:161-194 | one success leaves exactly one evaluation, signal and decision, linked to each other |
| `Composer.SuccessSays` | backend/internal/ambientmonitor/composer.go:127-209 | after a success the evaluation asks for the pinned revision on exactly the observations within window and finish, the signal reflects what was stored, and the decision asks about that signal on the pinned attention |
| `Composer.RetryConflictsIff` | backend/internal/ambientmonitor/composer.go:149-170 | once the evaluation is stored, an attempt that accepts its history is refused by its own key if and only if a record of the run was evicted or a new one appended |
| `Composer.RetryCanConflict` | backend/internal/ambientmonitor/repository.go:600-606 | a run from a full history in which a retry is refused so |
| `Composer.CompositionRetryDelay` | backend/internal/ambientmonitor/composition_delivery.go:358-371 | the doubling loop computes min(2^(n-1) minutes, 1 hour) |
| `Composer.RetryDelaysGrow` | backend/internal/ambientmonitor/composition_delivery.go:358-371 | delays never shrink and are an hour exactly from the seventh attempt on |
| `Ambient.Service.SaveOpportunity` | backend/internal/ambient/repository.go:111-122 | a save creates or replaces one record, or fails before or after doing so |
| `Ambient.Service.Accept` | backend/internal/ambient/service.go:520-661 | equals the staged acceptance on state and answers of the other services, every failure included |
| `Ambient.Service.Dismiss` | backend/internal/ambient/service.go:743-767 | only a proposed opportunity is dismissed, with its cooldown |
| `Ambient.NotFoundIffUnheard` | backend/internal/ambient/service.go:783-791 | acceptance and dismissal answer not found, and change nothing, if and only if there is no record or a named caller is not its owner or may not see its pursuit |
| `AmbientScan.StoreCandidates` | backend/internal/ambient/service.go:415-461 | filtered, created and updated add up to the offered candidates unless a save failed, and fingerprints stay unique |
| `AmbientScan.CandidateEnds` | backend/internal/ambient/service.go:415-461 | a candidate is filtered if and only if it is below either threshold; otherwise it fails exactly for a stranger's record or a failed save |
| `AmbientScan.StoredIffOffered` | backend/internal/ambient/service.go:415-461 | after storing, the records are those that were there and one for each fingerprint offered at or above both thresholds |
| `AmbientScan.StoreAllOnlyRevives` | backend/internal/ambient/service.go:237-277 | storing changes no status except a dismissed record's, which is proposed again after its cooldown |
| `AmbientScan.StoreAllMoves` | backend/internal/ambient/service.go:237-277 | storing keeps what every scan keeps: references, owners and fingerprints, and the status order |
| `AmbientScan.RestoringCreatesNone` | backend/internal/ambient/service.go:415-461 | storing the same candidates again creates nothing |
| `AmbientScan.StoredAsOffered` | backend/internal/ambient/service.go:416-459 | the stored record shows what was offered, and a dismissed one is proposed again if and only if its cooldown is over |
| `AmbientScan.CollectClosed` | backend/internal/ambient/service.go:1136-1164 | an update is collected if and only if it is the closed form of an open record whose pursuit has ended, and no record is collected twice |
| `AmbientScan.CloseEnded` | backend/internal/ambient/service.go:278-303 | with no failed save every listed record is left as it ends, and the count is that of the records that ended |
| `AmbientScan.CloseIsExact` | backend/internal/ambient/service.go:278-303 | whatever fails, only listed records that end change, into their closed form; with no failed save all of them do, each saved once |
| `AmbientScan.EndedIsCompletedIff` | backend/internal/ambient/service.go:278-303 | a listed record ends completed if and only if it was, or its workflow or its pursuit has ended; otherwise it is as it was |
| `AmbientScan.EndedSays` | backend/internal/ambient/service.go:278-303 | an open record is completed if and only if its workflow has ended or the last pursuit listed under its source is archived or completed, and nothing else about it changes |
| `AmbientScan.CloseMoves` | backend/internal/ambient/service.go:278-303 | closing keeps what every scan keeps |
| `AmbientRuns.AcceptTouches` | backend/internal/ambient/service.go:520-661 | an acceptance touches its own record only, sets a missing reference at most once and accounts for every workflow obtained |
| `AmbientRuns.RunKeepsInvariant` | backend/internal/ambient/service.go:237-661 | over any run every workflow obtained is a record's reference or was lost on the way to the store |
| `AmbientRuns.WorkflowsAreBounded` | backend/internal/ambient/service.go:608-645 | workflows obtained for an opportunity number at most one more than its lost references, and there is one opportunity for each fingerprint |
| `AmbientRuns.LifecycleLasts` | backend/internal/ambient/service.go:237-767 | over any run references are write-once, completed is final, accepted is never proposed or dismissed again |
| `AmbientRuns.CandidateAcceptanceNeverWorks` | backend/internal/ambient/service.go:552-571 | accepting while the pursuit is a candidate obtains no workflow, then or later |
| `AmbientRuns.AcceptanceObtainsOne` | backend/internal/ambient/service.go:573-660 | when everything answers, a proposal no pursuit made ends accepted with the one workflow that came back |
| `AmbientRuns.ReferencedAcceptanceIff` | backend/internal/ambient/service.go:638-660 | a proposal that has its workflow obtains nothing more, and is accepted with it if and only if pursuit or router, link and save are in order |
| `AmbientRuns.FirstAcceptanceIff` | backend/internal/ambient/service.go:520-661 | a proposal without a workflow is accepted if and only if the caller is heard, the services its kind needs answer, and the saves take effect |
| `AmbientRuns.ResolvedAnswers` | backend/internal/ambient/service.go:528-536 | resolved records are answered as they are or refused by their status, and stay |
| `AmbientRuns.OnlyOwnersResolve` | backend/internal/ambient/service.go:783-791 | in every run an acceptance or a dismissal changes a record only for its owner or a caller without a name, and a stranger's changes nothing |
| `AmbientRuns.RetryRepairsLinks` | backend/internal/ambient/service.go:607-660 | an acceptance made by a pursuit that fails in linking has persisted its reference, and repeated at once concludes with it |
| `AmbientRuns.DismissedUntilCooled` | backend/internal/ambient/service.go:259-261 | a dismissed opportunity stays so until a scan runs after its cooldown |
| `AmbientRuns.DismissalSetsCooldown` | backend/internal/ambient/service.go:743-767 | a proposal is dismissed with its cooldown if and only if the caller is heard and the save takes effect |
| `Ranking.BuildCandidates` | backend/internal/ambient/service.go:889-902 | the admitting loop, stable sort and truncation compute the ranked list |
| `Ranking.AdmittedAreFirst` | backend/internal/ambient/service.go:891-902 | each fingerprint once: its first wanted candidate |
| `Ranking.AdmittedAreOffers` | backend/internal/ambient/service.go:891-902 | each kept record is an offer for an enabled need with its own score, owner and fingerprint and the rest as offered |
| `Ranking.FingerprintIdentifies` | backend/internal/ambient/service.go:1260-1263 | without NUL characters two fingerprints are equal if and only if source and need are, up to case |
| `Ranking.TruncatedRanking` | backend/internal/ambient/service.go:1015-1022 | the kept list is unique, descending and stable, and no omitted candidate scores higher than a kept one |
| `Ranking.ScoreIsMonotone` | backend/internal/ambient/service.go:1166-1180 | scores lie in [0,100], grow with urgency, impact and confidence and shrink with effort, risk and approval |
| `Ranking.WorthInPoints` | backend/internal/ambient/service.go:1166-1180 | how many points each input is worth, exactly |
| `Ranking.WeightsAddUp` | backend/internal/ambient/service.go:1166-1180 | on percentages the upper clamp is never needed, and zero means less than half a point |
| `Ranking.ScanTable.PruneScans` | backend/internal/ambient/repository.go:182-197 | leaves exactly the newest min(n, max(keep, 10)) scans by start and ID |
| `Runtime.Registry.RegisterRunningTask` | backend/internal/agentruntime/runtime.go:333-351 | takes the key if it is free |
| `Runtime.Registry.FinishRunningTask` | backend/internal/agentruntime/runtime.go:353-362 | frees the key and no other |
| `Runtime.Registry.StopTask` | backend/internal/agentruntime/runtime.go:268-327 | which execution is cancelled and what is answered |
| `Runtime.StopAnswers` | backend/internal/agentruntime/runtime.go:268-327 | each answer of a stop has its own condition on owner, task, entry and runtime |
| `Runtime.RunKeepsInvariant` | backend/internal/agentruntime/runtime.go:416-531 | the table is exactly the executions in flight, and adapters are called once with a proof bound to the call |
| `Runtime.EntersIff` | backend/internal/agentruntime/runtime.go:416-491 | an execution enters if and only if no emergency stop is on, runtime and task may run as listed, and its key is free |
| `Runtime.VerifiesIff` | backend/internal/agentruntime/runtime.go:494-503 | the check before the call passes if and only if the verifier accepts a proof in order and bound to this very work |
| `Runtime.StepsSay` | backend/internal/agentruntime/runtime.go:504-531 | cleared while live, called unless stopped, and finished unless cancelled |
| `Runtime.CalledMayRun` | backend/internal/agentruntime/runtime.go:416-520 | in every run an adapter is called only for a task that may run there, approved by a human where asked for, with a proof of this very work |
| `Runtime.OnePerTask` | backend/internal/agentruntime/runtime.go:333-351 | at most one execution per runtime and work item is in flight |
| `Runtime.LeaveRemovesOwnEntry` | backend/internal/agentruntime/runtime.go:353-362 | leaving removes one's own entry and no other |
| `Runtime.StopReachesOwnTaskOnly` | backend/internal/agentruntime/runtime.go:364-377 | a stop cancels at most one execution, of the same owner |
| `Runtime.EarlyStopPreventsCall` | backend/internal/agentruntime/runtime.go:416-531 | a stop accepted before the pre-call check prevents the adapter call in every continuation |
| `Runtime.StopForcesBlockedIff` | backend/internal/agentruntime/runtime.go:416-531 | a stop accepted anywhere before the check after the call forces a blocked result in every continuation if and only if the pre-call check is still to come or the deadline had not ended the context |
| `Runtime.StopDuringCallBlocksUnlessExpired` | backend/internal/agentruntime/runtime.go:416-531 | a stop accepted during the call forces a blocked result if and only if the deadline had not passed |
| `Runtime.StopCanComeTooLate` | backend/internal/agentruntime/runtime.go:416-531 | a reachable state in which the deadline has ended a call, a stop is accepted and the execution still finishes |
| `Runtime.StopReachesNamedTaskIffNoColon` | backend/internal/agentruntime/runtime.go:329-331 | with plain runtime names an accepted stop reaches the named work if and only if the requested name has no colon |
| `Runtime.StopCanReachAnotherTask` | backend/internal/agentruntime/runtime.go:329-377 | a reachable state in which a stop for an unregistered runtime cancels a live execution of another one |
| `Runtime.BoundProofFitsIff` | backend/internal/agentruntime/runtime.go:228-265 | a bound proof passes the check before the call if and only if nothing that the authorization covers has changed since it was bound |
| `Runtime.BoundProofCallsOnlyItsWork` | backend/internal/agentruntime/runtime.go:228-265 | in every run an execution with a bound proof has its adapter called only for the work that was bound |
| `Runtime.BindsIff` | backend/internal/agentruntime/runtime.go:236-265 | binding succeeds if and only if the runtime is known, the task is named, owned and prompted, and the consumed authorization is well formed |
| `Runtime.LimitedWriter.Write` | backend/internal/agentruntime/runtime.go:3557-3573 | keeps what still fits and reports the whole write |
| `Runtime.KeepsFirstBytes` | backend/internal/agentruntime/runtime.go:3557-3573 | however bytes are cut into writes, exactly the first min(total, limit) are kept |

## Definitions

The functions below follow pure code branch by branch and have no contract of their own; the
members above say what they mean.

- `RegistryRules`: `ValidateAgent`, `ValidateRequest` and their parts (agentregistry/validation.go:23-192, 230-279),
  `CompareVersions` (307-319), `AgentReady`, `TransitionAllowed`, `Eligible` and the matching predicates
  (agentregistry/service.go:314-333, 374-500), `Components` and `Score` (336-371), `ReliabilityScore` (agentregistry/types.go:80-84).
- `RegistryService`: `Registration`, `Replacement`, `Moved`, `Finished`, `WithOutcome` and the `Prepare` functions
  (agentregistry/service.go:33-48, 67-129, 225-287); `AssignWhole` is one
  whole assignment (138-213), `ReserveListed` its last part (206-212), and `Exec` one command.
- `Delegation.TransitionDelegation`, `Delegation.ValidDelegation` (agentcoordination/state.go:17-109, validation.go:201-289);
  `ConflictLifecycle.TransitionConflict` (conflict.go:99-144).
- `Digest.ViewOf` (agentcoordination/validation.go:159-199).
- `Composer.LoopOf`, `StatusOf`, `CompositionKey` (ambientmonitor/composer.go:345-391, 413-432).
- `Ambient.AcceptIn` and its stages (ambient/service.go:520-741), `AmbientScan.EndsByPursuit` (1136-1164),
  `Ranking.OpportunityScore`, `Ranking.Fingerprint` (1166-1180, 1260-1263).
- `Runtime.Admitted`, `FinalEffectRequest`, `ProofFits`, `BindConsumedAuthorizationProof` (agentruntime/runtime.go:228-265, 416-480,
  final_effect_authorization.go:69-114).

## Left out

- HTTP handlers, request binding, the A2A bridge and the agent framework client: transport around libraries outside this repository.
- The Postgres repositories and their queries: the models use the in-memory repositories and abstract stores.
- Adapters, ecosystem scanning, keyword routing, health checks and the Python services: files, subprocesses and word lists.
- Message validation (agentcoordination/validation.go:69-157), acknowledgments and timeout evaluation: checks of one value at a time.
- Expiry of dispatch claims: the store contract does not define it.
- Leases, attempts and dead letters of composition deliveries: attempts are unrestricted here, which allows more runs, not fewer.
- Capturing the composition snapshot, and the scope checks on downstream answers, which only turn an answer into a failed attempt.
- The bounded idempotency tables of the in-memory sinks: a sink here never forgets a key.
- Reads that fail: they return before anything changes.
- Reasons given for an ineligible agent, component reasons, notes, feedback memories and byte counters: texts and statistics.
- Parsing of version strings and descriptions of capabilities.
- Gathering the signals a scan offers; `Ranking` starts from the offered candidates.
- Scans that run at the same time as an acceptance of the same opportunity: the program takes no lock there, and the model runs operations one after the other.
- The sorting algorithm: results are shown to be the only ones that the order allows.
- RegistryReplies.EveryReplyIsAccounted: allows two replies of an assignment that are right at no instant of its call, a conflict and that nobody is eligible, because the program gives them.
- RegistryClients.InterleavedRunsAreAtomic: logs a fresh grant as the reservation of a listed agent; `RegistryReplies.GrantIsWholeIff` says when that is the whole assignment.
- AmbientRuns.RetryRepairsLinks: repeats the acceptance at once with the same services; `AmbientRuns.ReferencedAcceptanceIff` covers any later one.
- AmbientRuns.WorkflowsAreBounded: counts a workflow that an intake or route made but never returned as a lost reference, because the program cannot see it.
- Composer.RetriesAreExactReplays: assumes that nothing observed later belongs to the run and no record of it is evicted; `Composer.RetryConflictsIff` says what happens to an attempt otherwise.
- Conflicts.DetectConflicts: exactness is stated for distinct IDs without commas or bars and an injective name-based UUID. Validation leaves the form of an ID to a UUID library, a parameter here, which also accepts text in brackets without looking at the outer characters; `Conflicts.ValidatedIsPlain` covers canonical text.
