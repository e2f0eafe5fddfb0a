# A verified model of the Ledger and of Treasury

This project models, in Dafny, an append-only economic ledger and the Treasury application in front of it, and
proves what their code keeps over every run.

**The book.** A ledger is a sequence of immutable events. One write step decides each command: it returns the event
the command already became, refuses, or appends exactly one event. An event names positions (economic objects) with
a relation: ORIGINATES, SETTLES, ADJUSTS, REVERSES, REFERENCES, or RETRACTS. A retraction says that the event it
relates to never happened; it can itself be retracted, once. Every figure the ledger publishes is a fold over the
events that stand. The source writes that fold at least four times: a one-hop map, nested NOT EXISTS in SQL, a
two-hop lookup for the cash statement, and per position against the whole book. `Ledger` models the write step with
the real contracts and matrices (`Catalog`, `Validation`), `Retraction` the forms of the fold, `Figures` everything
additive, and `Rectification`, `Conservation`, `Positions`, `Aggregates`, `Pushdown`, `CashFlows` and `Exposure` what
is derived from them. `Guards` says exactly what the write step admits, `Validity` which rule of an event is reported,
and `Shares`, `Movements` and `Balances` what the published figures are made of. `Witnesses` and `Corrections` hold
concrete runs from the empty book that show where the guards stop, and where they do not.

**Beside the book.** `Canonical`, `EventPayload` and `HashChain`: the serialization under the hash chain and what one
head hash says about a whole book. `Moneys`: amounts as text. `Pagination`: keyset pages of a changing listing.
`EditDistance`: the single-row Levenshtein loop. `SnapshotRefresher`: the cache of positions and the sweep that keeps
it honest while the book grows under it. `RetryProtocol`: submission with lost, repeated and late messages,
`Acceptances` when an acceptance is final, and `LateReplies` a run in which it is not.
`Reissue`: describing a recorded fact again. `Admission`: what Treasury proposes against the rules the Ledger holds
every event to. `Staging` and `Submission`: the checks before the write step, the whole submit path from an intent's
answers to the book, and which rejections can be corrected. `Faults`: that what is asked again was wrong. `Proposals`:
books that Treasury alone has written. `Provenance`: what a committed event says and where it
says it comes from.

Classes, loops and reassigned variables of the source are classes and methods here, proved against functions; the
laws are lemmas about those functions. Instants are integers in milliseconds, amounts natural numbers of minor units.
The hypotheses used are written in the lemmas: a collision-free digest and an injective instant format for the hash
chain, an instant format that reads back what it wrote for restating, and one currency where figures of several
positions are added.

## Where the code and its comments part

The model follows the code.

- `CreateLedgerEventUseCase.ts:104-106` says the guard and the read paths can never disagree about what stands. They
  disagree exactly when some retraction is out of scope in the sense of `Positions.RetractionsStayInScope`, which a
  retraction that does not name what its target moved can be; `EventContract.ts:295-296` leaves it open
  (`Positions.ScopeAgreesExactlyWhenRetractionsName`, `Witnesses.OneFoldPerScope`).
- `CreateLedgerEventUseCase.ts:95` says nothing closes more than was opened. The guard covers one SETTLES at a time
  of a position with a baseline; ADJUSTS, retractions, late originations and one event settling a position twice
  each break it (`Witnesses.EachExclusionIsNeeded`). `Conservation.EveryStepConservesExactly` and
  `Conservation.RunsConserveExactly` say exactly when it holds.
- `SnapshotRefresher.ts:71-73` says that before the first sweep there is nothing yet to be stale. There can be, and
  it stays (`SnapshotRefresher.FirstSweepKeepsStaleEntries`); `SnapshotRefresher.KeepSweeping` says exactly when not.
- `CandidateMapper.ts:564-568` says everything but the corrected fields is carried over exactly. The due date is
  dropped, a counterparty that is the usina is lost, and a minted position is minted again
  (`Reissue.RestatingDescribesTheSameFact`, with concrete answers in `Reissue.DueDatesAreLost` and
  `Reissue.TheUsinaPayingItselfIsLost`).
- `SubmitIntent.ts` saves without looking at what the repository holds by then, so a late rejection can overwrite an
  acceptance (`LateReplies.ALateRejectionOverwritesAnAcceptance`, and exactly when in
  `Acceptances.AcceptancesSurviveExactlyWithoutAPendingRejection`); and a retry with edited answers is accepted with
  the event of the answers before (`RetryProtocol.EveryRetryReturnsTheEvent`).
- `SubmitIntent.ts:31-32` and `CandidateMapper.ts:746-747` expect rejections with a field and no slot to ask it by.
  Of what `build` makes for a usina that has an id there are none (`Submission.NamedFieldsAreAskedAgain`).
- An empty command id passes for none (`Witnesses.EmptyCommandIdsRepeat`,
  `RetryProtocol.CommandIdsAreUniqueButForTheEmptyOne`), and the hash does not cover the currency
  (`Witnesses.OneHeadHashTwoCurrencies`).
- The in-memory fold of the latest occurrence starts at the epoch and the SQL one does not
  (`Pushdown.RepositoriesAgree`, `Pushdown.BeforeTheEpochTheyDiffer`).

## Model

| member | source | states |
|---|---|---|
| Ledger.CreateLedgerEventUseCase.Execute | ledger/src/core/application/use-cases/CreateLedgerEventUseCase.ts:26-218 | one command is one atomic step: it returns the event the command already became, appends exactly one event, or is refused with the book unchanged; and it keeps every invariant of the book |
| Ledger.CreateLedgerEventUseCase.Guard | ledger/src/core/application/use-cases/CreateLedgerEventUseCase.ts:41-133 | the refusal reported is the first of lineage, retraction and over-settlement |
| Ledger.CreateLedgerEventUseCase.GuardSettlements | ledger/src/core/application/use-cases/CreateLedgerEventUseCase.ts:107-133 | the loop over the command's objects refuses for the first SETTLES that would close more than its position's baseline, skipping reversed positions and those without one |
| Ledger.CreateLedgerEventUseCase.Record | ledger/src/core/application/use-cases/CreateLedgerEventUseCase.ts:135-218 | an event is appended only if its parties can be read, it satisfies every rule of the entity, and its id is new |
| Ledger.InMemoryLedgerEventRepository.Save | ledger/src/infra/persistence/memory/InMemoryLedgerEventRepository.ts:42-47 | appends the event, or leaves the book alone when the id is taken |
| Ledger.InMemoryLedgerEventRepository.FindByObjectId | ledger/src/infra/persistence/memory/InMemoryLedgerEventRepository.ts:70-74 | the events that name the object, in book order |
| Ledger.CommittedEvent | ledger/src/core/application/use-cases/CreateLedgerEventUseCase.ts:26-218 | what a committed event is known to satisfy: new id and source reference, valid, sealed with its own hash, linked to the head of the book, past every guard |
| Ledger.CommitKeepsTheBookWellFormed | ledger/src/core/application/use-cases/CreateLedgerEventUseCase.ts:26-218 | one step keeps: unique ids, one retraction per target, lineage strictly earlier, retraction chains of two at most, unique source references, unique non-empty command ids, an unbroken hash chain, valid and sealed events |
| Ledger.RetractionsStayOrderly | ledger/src/core/application/use-cases/CreateLedgerEventUseCase.ts:61-93 | the lineage and retraction guards keep the four facts the one-hop fold relies on |
| Ledger.ChainsStayShallow | ledger/src/core/application/use-cases/CreateLedgerEventUseCase.ts:85-92 | the depth guard, which looks two events back, keeps every retraction chain at two |
| Ledger.LineageStaysEarlier | ledger/src/core/application/use-cases/CreateLedgerEventUseCase.ts:46-59 | whatever an event relates to was recorded before it |
| Ledger.UniquenessStays | ledger/src/core/application/use-cases/CreateLedgerEventUseCase.ts:27-35 | the identity guards keep source references and non-empty command ids unique |
| Ledger.ChainStays | ledger/src/core/application/use-cases/CreateLedgerEventUseCase.ts:145 | a committed event carries the hash of the one before it |
| Ledger.RunsAreWellFormed | ledger/src/core/application/use-cases/CreateLedgerEventUseCase.ts:26-218 | every book reachable from the empty one by any commands, ids and clocks satisfies all of the above |
| Ledger.RunsOnlyAppend | ledger/src/infra/persistence/memory/InMemoryLedgerEventRepository.ts:42-47 | a longer run's book starts with the shorter run's: nothing recorded is rewritten |
| Ledger.StandingAgreesOnEveryReachableBook | ledger/src/core/application/dtos/retractionUtils.ts:20-36 | on every reachable book the recursive rule (an event stands unless a standing retraction targets it), the one-hop map fold and the nested NOT EXISTS name the same standing events |
| Guards.CommandsAreDecidedExactly | ledger/src/core/application/use-cases/CreateLedgerEventUseCase.ts:26-218 | the write step as a whole: a command is recorded if and only if nothing is recorded under its id, its identities are new, it can be read and says where it comes from, the guards admit it in terms of the events of the book, and the event it asks for is valid |
| Guards.OriginsAreAdmittedExactly | ledger/src/core/application/use-cases/CreateLedgerEventUseCase.ts:46-59 | a command that relates to an event is let through, refused for a missing origin or refused for a wrong one exactly when the origin is there and allowed, is not there, or is there and not allowed |
| Guards.RetractionsAreAdmittedExactly | ledger/src/core/application/use-cases/CreateLedgerEventUseCase.ts:61-93 | a retraction of an event of the book is let through if and only if nothing retracts the event yet and what the event itself retracts is no retraction: a retraction can be undone, its undoing cannot |
| Guards.SettlementsAreAdmittedExactly | ledger/src/core/application/use-cases/CreateLedgerEventUseCase.ts:107-133 | a command settles only what fits, and everything that fits: a position that some standing event reversed, one with no origination, or one whose declared closings with this amount stay within its declared originations |
| Guards.ReversedPositionsAreNeverRefused | ledger/src/core/application/use-cases/CreateLedgerEventUseCase.ts:120 | no payment against a position that a standing event reversed is refused for its amount |
| Guards.RefusedPaymentsReportWhatIsLeft | ledger/src/core/application/use-cases/CreateLedgerEventUseCase.ts:122-132 | a refused payment reports what was declared originated less what was declared closed, which is less than the amount |
| Guards.GuardsReportInOrder | ledger/src/core/application/use-cases/CreateLedgerEventUseCase.ts:41-133 | a missing origin is reported before a wrong one, that before a second retraction, and all of them before a payment that does not fit |
| Guards.RefusalsComeInOrder | ledger/src/core/application/use-cases/CreateLedgerEventUseCase.ts:27-133 | a known source reference is reported before a missing id, that before an unreadable amount, that before what the guards find |
| Guards.LaterRefusalsComeInOrder | ledger/src/core/application/use-cases/CreateLedgerEventUseCase.ts:135-218 | and past the guards: missing metadata before an unreadable party, that before the first broken rule, and a taken id last |
| Corrections.AMistakenRetractionIsUndone | ledger/src/core/application/use-cases/CreateLedgerEventUseCase.ts:85-93 | a run from the empty book: an accrual, its withdrawal and the withdrawal of the withdrawal are all recorded, and the position goes from 100 to 0 and back to 100 |
| Corrections.PaymentsFollowReversals | ledger/src/core/application/use-cases/CreateLedgerEventUseCase.ts:120 | a run from the empty book: after a reversal a payment of 150 against 100 is recorded, which is refused with 100 left before it |
| Provenance.PartiesAreRead | ledger/src/core/application/use-cases/CreateLedgerEventUseCase.ts:147-155 | parties are read in order, each with the amount its text denotes, and are unreadable exactly when a stated amount is |
| Provenance.EveryEventWasAsked | ledger/src/core/application/use-cases/CreateLedgerEventUseCase.ts:135-202 | nothing is in a reachable book that no command of its run asked for: every event says in every field what one of them did, with its amounts read as money and its recording instant stamped |
| Provenance.EveryBookIsTraceable | ledger/src/core/application/use-cases/CreateLedgerEventUseCase.ts:46-59 | on every reachable book each event names an origin recorded before it and of a type its contract allows, or names none where it may, or declares its origin unresolved |
| Retraction.RetractedEventIds | ledger/src/core/application/dtos/retractionUtils.ts:20-36 | the two loops compute the targets whose retraction was not itself a target |
| Retraction.RetractionMapHolds | ledger/src/core/application/dtos/retractionUtils.ts:20-27 | the map holds exactly the targets of the list's retractions, each under the id of one of them |
| Retraction.OneHopIsNotExists | ledger/src/infra/persistence/typeorm/TypeOrmLedgerEventRepository.ts:45-56 | with one retraction per target the map fold and the two nested NOT EXISTS agree on every id |
| Retraction.StandingHasOneMeaning | ledger/src/core/application/dtos/retractionUtils.ts:20-36 | under the four facts, the recursive rule, the map fold and NOT EXISTS agree event by event |
| Retraction.RetractedIdsIgnoreOrder | ledger/src/core/application/dtos/retractionUtils.ts:20-36 | with one retraction per target the retracted set depends on which events there are, not on their order |
| Witnesses.TwoRetractionsDependOnOrder | ledger/src/core/application/use-cases/CreateLedgerEventUseCase.ts:76-83 | with two retractions of one target the same events in another order give another retracted set: the guard against a second retraction is needed |
| Figures.FoldObjectTotals | ledger/src/core/application/dtos/retractionUtils.ts:63-86 | originated and closed units and the reversal flag are sums of the standing events' shares |
| Figures.SumWithoutOne | ledger/src/core/application/dtos/retractionUtils.ts:63-86 | leaving one standing event out takes exactly its contribution off any figure |
| Figures.RetractionContributesNothing | ledger/src/core/domain/policies/InvariantPolicy.ts:216-246 | a valid retraction adds nothing to any figure of a position or of cash |
| Figures.FiguresIgnoreOrder | ledger/src/core/application/dtos/retractionUtils.ts:63-86 | every figure of a position or of the book is the same for any permutation of a list with one retraction per target |
| Shares.TalliesAreDeclared | ledger/src/core/application/services/PositionProjectionService.ts:147-187 | every column of a position in terms of what its standing events declare: cash recovered is what the CASH_IN events alone settle, closed without cash what the NON_CASH events alone settle, referenced cash what the CASH_IN and the CASH_OUT events alone reference, and the flags say that some event reverses it or declares its origin unresolved |
| Shares.OutcomesOfSettledPositions | ledger/src/core/application/services/PositionProjectionService.ts:303-318 | a fully settled position is a gain if and only if no standing NON_CASH event settled it, a partial loss if and only if one did and a CASH_IN one too, a full loss if and only if one did and no CASH_IN one |
| Rectification.RetractionSubtractsItsTarget | ledger/src/core/application/use-cases/CreateLedgerEventUseCase.ts:61-93 | committing a retraction of an ordinary event changes every figure, per position and of cash, by exactly minus that event's contribution |
| Rectification.RetractingARetractionRestores | ledger/src/core/application/use-cases/CreateLedgerEventUseCase.ts:61-93 | retracting a retraction restores every figure to what it would be had neither been recorded, whatever was appended in between |
| Rectification.RetractionRemovesItsTarget | ledger/src/core/application/dtos/retractionUtils.ts:29-34 | of all ids, a new retraction of an ordinary event adds its target to the retracted ones and no other |
| Conservation.SettlingOnceConserves | ledger/src/core/application/use-cases/CreateLedgerEventUseCase.ts:107-133 | a committed event that settles once a position with a baseline and no standing reversal leaves closed at most originated there if and only if what it adjusts besides still fits, so always when it adjusts nothing |
| Conservation.EveryStepConservesExactly | ledger/src/core/application/use-cases/CreateLedgerEventUseCase.ts:95-133 | every committed command, whatever it originates, settles, adjusts, reverses or retracts, leaves a position conserved if and only if it does not overdraw it, a condition on the book before it |
| Conservation.WhatOverdraws | ledger/src/core/application/use-cases/CreateLedgerEventUseCase.ts:107-133 | for a command that retracts nothing the condition in the counts of its objects: no standing or new reversal, a baseline, and more closed than originated once they are added |
| Conservation.PositionAfterRetraction | ledger/src/core/application/dtos/retractionUtils.ts:20-36 | what a retraction does to any figure of a position as the guard measures it: nothing unless it names the position, minus its target's share, and for a retraction of a retraction the share of what that one took, if that one names the position too |
| Conservation.OverdrawingIsIrregular | ledger/src/core/application/use-cases/CreateLedgerEventUseCase.ts:107-133 | a committed command that overdraws a position conserved before it adjusts it, settles it twice, first originates it below what was closed, or retracts |
| Conservation.RunsConserveExactly | ledger/src/core/application/use-cases/CreateLedgerEventUseCase.ts:95-133 | a run keeps a position conserved at every step if and only if no step of it overdraws the position |
| Conservation.RegularRunsConserveEveryPosition | ledger/src/core/application/use-cases/CreateLedgerEventUseCase.ts:95-133 | in particular over every run in which no command that is recorded adjusts the position, settles it twice, first originates it below what was closed, or retracts |
| Conservation.RunsPublishNoOverSettlementExactly | ledger/src/core/application/services/PositionProjectionService.ts:278-288 | no moment of a run publishes an over-settlement of a position not reversed if and only if no step of the run overdraws it |
| Conservation.PositionAfter | ledger/src/core/application/dtos/retractionUtils.ts:63-86 | an event that retracts nothing changes a position by its own objects' shares |
| Conservation.StepEffect | ledger/src/core/application/use-cases/CreateLedgerEventUseCase.ts:107-133 | what a committed non-retracting command does to any position, and what its guard saw there |
| Witnesses.EachExclusionIsNeeded | ledger/src/core/application/use-cases/CreateLedgerEventUseCase.ts:107-133 | for each of the four there is a run from the empty book that is irregular in no other way at any position and ends with more closed than originated |
| Witnesses.AdjustingBreaks | ledger/src/core/application/use-cases/CreateLedgerEventUseCase.ts:107-133 | the one for adjustments: of an advance of 100, one event settles 60 once and adjusts 60, passes the guard and leaves 120 closed |
| Witnesses.PlainCommits | ledger/src/core/application/use-cases/CreateLedgerEventUseCase.ts:26-218 | the commands of these runs are really recorded: they pass every rule of the entity, the contracts and the matrices |
| Witnesses.OneFoldPerScope | ledger/src/core/application/use-cases/CreateLedgerEventUseCase.ts:104-119 | a reachable book on which a retraction names another position than its target's: the whole-book fold has taken the target off, the position's own events still count it, and the guard admits a payment against it |
| Witnesses.EmptyCommandIdsRepeat | ledger/src/core/application/use-cases/CreateLedgerEventUseCase.ts:27-30 | an empty command id is not an identity: a reachable book holds two events under it |
| Witnesses.OneHeadHashTwoCurrencies | ledger/src/core/domain/entities/LedgerEvent.ts:127-180 | two reachable books with one head hash whose events are in two currencies: the hash does not cover the currency |
| Positions.Project | ledger/src/core/application/services/PositionProjectionService.ts:117-222 | the accumulating loop publishes the standing tally of the position's events and the status, open balance, over-settlement and outcome derived from it; it fails exactly when it would add two currencies |
| Positions.AddEvent | ledger/src/core/application/services/PositionProjectionService.ts:147-187 | one standing event adds each of its objects' shares and its declaration of an unresolved origin |
| Positions.AddsWhereItCounts | ledger/src/core/application/services/PositionProjectionService.ts:154-187 | an amount is added, and so its currency looked at, exactly where it counts in some figure of the position |
| Positions.BalancesExplainTheStatus | ledger/src/core/application/services/PositionProjectionService.ts:265-318 | the published balances are absent exactly when the origination is unknown, never both positive, and account for originated minus closed; status and outcome are read off them |
| Positions.SettlementsSplitByEffect | ledger/src/core/application/services/PositionProjectionService.ts:162-169 | cash recovered and closed without cash are parts of what was settled, and all of it when no standing event paid out |
| Positions.TallyIgnoresOrder | ledger/src/core/application/services/PositionProjectionService.ts:117-222 | recognize-then-pay and pay-then-recognize give one position: tally, status, open balance, over-settlement and outcome ignore order |
| Positions.ScopeAgreesExactlyWhenRetractionsName | ledger/src/core/application/services/PositionProjectionService.ts:28-32 | folding a position over its own events names the standing events the whole book names if and only if its retractions stay in scope |
| Positions.ScopeGivesTheBooksTally | ledger/src/core/application/services/PositionProjectionService.ts:117-222 | in scope, the position's own events give the whole book's figures for it |
| Positions.UntouchedPositionsKeepTheirFigures | treasury/src/core/application/services/SnapshotRefresher.ts:30-37 | events that do not name a position leave its own fold alone always, and the whole book's figures for it when its retractions stay in scope: what forgetting only the named positions relies on |
| Aggregates.BuildAggregateMap | ledger/src/infra/persistence/memory/InMemoryLedgerEventRepository.ts:272-366 | the in-place map holds, for every position some standing event names and no other, the group-by columns of its standing rows |
| Aggregates.UpdateEntry | ledger/src/infra/persistence/memory/InMemoryLedgerEventRepository.ts:284-358 | one row updates an entry to the columns of its group with that row |
| Aggregates.AddRow | ledger/src/infra/persistence/memory/InMemoryLedgerEventRepository.ts:284-358 | one row creates or updates its own position's entry and leaves every other alone |
| Aggregates.AggregateTallyIsTheBooks | ledger/src/infra/persistence/memory/InMemoryLedgerEventRepository.ts:272-366 | the seven sums and two flags of a position's rows are the whole-book fold of its standing events |
| Aggregates.ProjectionAgreesWithAggregate | ledger/src/core/application/services/PositionProjectionService.ts:58-104 | for a position whose retractions stay in scope, projecting its own events and listing its aggregate publish the same totals, status, open balance, over-settlement and outcome |
| Aggregates.TypeOccurs | ledger/src/infra/persistence/typeorm/TypeOrmLedgerEventRepository.ts:356 | the published type is the type of some row |
| Aggregates.NoTypeIsGreater | ledger/src/infra/persistence/typeorm/TypeOrmLedgerEventRepository.ts:356 | and no row's type is greater |
| Aggregates.RecordingIsTheEarliest | ledger/src/infra/persistence/typeorm/TypeOrmLedgerEventRepository.ts:370 | the creation instant is the earliest recording of the rows |
| Aggregates.OriginationIsTheEarliest | ledger/src/infra/persistence/typeorm/TypeOrmLedgerEventRepository.ts:369 | the origination instant is the earliest occurrence of an originating row, absent without one |
| Aggregates.DueIsTheEarliest | ledger/src/infra/persistence/typeorm/TypeOrmLedgerEventRepository.ts:371 | the due instant is the earliest stated by an originating row, absent without one |
| Aggregates.OccurrenceIsTheLatest | ledger/src/infra/persistence/memory/InMemoryLedgerEventRepository.ts:354 | the latest occurrence bounds every row's, and is some row's or the epoch |
| Pushdown.PushdownIsExact | ledger/src/infra/persistence/typeorm/TypeOrmLedgerEventRepository.ts:264-377 | narrowing by one semi-join per filter before GROUP BY and filtering afterwards returns the same positions with the same columns as aggregating every standing row and filtering then, for any mix of type, period, party and status filters |
| Pushdown.NarrowingKeepsGroupsWhole | ledger/src/infra/persistence/typeorm/TypeOrmLedgerEventRepository.ts:287-294 | a semi-join on object identity keeps a position's rows all or not at all |
| Pushdown.ConditionsImplyCandidacy | ledger/src/infra/persistence/typeorm/TypeOrmLedgerEventRepository.ts:270-304 | a position that meets the conditions after grouping has, for each filter, a row that satisfies it |
| Pushdown.OneCombinedSemiJoinLosesPositions | ledger/src/infra/persistence/typeorm/TypeOrmLedgerEventRepository.ts:276-292 | the combined form, one row satisfying every filter, drops a position that belongs in the listing |
| Pushdown.StatusSqlIsTheDerivedStatus | ledger/src/infra/persistence/typeorm/TypeOrmLedgerEventRepository.ts:99-112 | each status predicate holds of exactly the tallies whose derived status it is |
| Pushdown.RepositoriesAgree | ledger/src/infra/persistence/typeorm/TypeOrmLedgerEventRepository.ts:353-375 | the SQL and in-memory aggregates of a single-currency position are equal if and only if some event of it occurred at the epoch or later |
| Pushdown.Plan | ledger/src/infra/persistence/typeorm/TypeOrmLedgerEventRepository.ts:264-304 | the filters as the query accumulates them select, whatever the rows, what the listing means |
| Pushdown.PositionsAreListedExactly | ledger/src/infra/persistence/typeorm/TypeOrmLedgerEventRepository.ts:264-377 | a position of a book is listed if and only if some standing event names it, its greatest type is asked for, the status derived from its standing events is asked for, its earliest recording lies in the period, and one of the parties asked for takes part in it; an empty filter asks for nothing |
| Pushdown.ListedPositionsShowTheBooksFigures | ledger/src/infra/persistence/typeorm/TypeOrmLedgerEventRepository.ts:306-377 | what is listed of it are the figures of the whole book |
| Pushdown.EventsAreCountedOnce | ledger/src/infra/persistence/memory/InMemoryLedgerEventRepository.ts:360-364 | the events counted of a position are the standing ones that name it, each once however often it does |
| Pushdown.BeforeTheEpochTheyDiffer | ledger/src/infra/persistence/memory/InMemoryLedgerEventRepository.ts:354 | a reachable book of one event that occurred a millisecond before the epoch, on which they differ |
| CashFlows.AggregateCashFlows | ledger/src/infra/persistence/memory/InMemoryLedgerEventRepository.ts:385-404 | the book's cash in and out are the standing sums of its CASH_IN and CASH_OUT events |
| CashFlows.LegsSumToFlows | ledger/src/core/domain/entities/LedgerEvent.ts:242-341 | over valid events, standing IN legs minus OUT legs are cash in minus cash out |
| CashFlows.FlowCurrencyIsTheFirst | ledger/src/infra/persistence/memory/InMemoryLedgerEventRepository.ts:385-404 | the currency published is that of the first standing cash event, BRL where there is none |
| CashFlows.PartyLegsAreTheBooksCash | ledger/src/core/domain/entities/LedgerEvent.ts:242-341 | the same on every well-formed book: internal transfers balance and non-cash and contingent events move nothing |
| CashFlows.AggregateCashFlowsBefore | ledger/src/infra/persistence/memory/InMemoryLedgerEventRepository.ts:422-442 | the flows of the standing cash events before an instant |
| CashFlows.TwoHopsAreEnough | ledger/src/core/application/services/CashStatementService.ts:24-40 | the two-hop lookup marks exactly the period's cash events that the whole-book fold retracts |
| CashFlows.SumPeriod | ledger/src/core/application/services/CashStatementService.ts:45-58 | the period's flows are those of its standing events with the usina on the moving leg |
| CashFlows.Summarize | ledger/src/core/application/services/CashStatementService.ts:14-83 | the published statement: signed opening and closing balances, totals and net flow of the period, in the book's terms |
| CashFlows.StatementsContinueExactlyWithoutOthers | ledger/src/core/application/services/CashStatementService.ts:14-83 | the signed closing balance of a statement is the signed opening balance of the next if and only if the standing cash events that others moved net to zero in its period |
| CashFlows.AdjacentStatementsJoin | ledger/src/core/application/services/CashStatementService.ts:14-83 | in particular when the usina is on the moving leg of every standing cash event of the period |
| Movements.TheListingAddsUpToTheStatement | ledger/src/core/application/services/CashStatementService.ts:45-58 | the movements listed for a party and a period add up to what the statement says it received and paid |
| Movements.ThePagesAddUpToTheStatement | ledger/src/core/application/services/CashStatementService.ts:45-58 | and so do the pages of a walk over the listing, for any page size, axis and direction |
| Movements.TheOpeningIsWhatWasListedBefore | ledger/src/infra/persistence/memory/InMemoryLedgerEventRepository.ts:422-442 | the opening balance of a statement is what came in less what went out by every movement listed before it |
| Movements.SharesAreTheLegs | ledger/src/core/application/services/CashStatementService.ts:45-58 | of a valid cash event where nobody else is on the moving leg, the statement counts for a party what its own legs carry |
| Proposals.TheUsinaMovesWhatIsBuilt | treasury/src/core/application/services/CandidateMapper.ts:126-150 | every payment Treasury proposes is recorded as made by the usina, every receipt as its own, with the counterparty answered across from it as payee or payer |
| Proposals.WhatIsRecordedWasAnswered | treasury/src/core/application/services/CandidateMapper.ts:719-739 | from the answers to the event: what is recorded of a candidate are the instants, the amount, the description and the origin answered, under the intent's key, reported by its user |
| Proposals.StatementsOfTreasurysBooksJoin | ledger/src/core/application/services/CashStatementService.ts:14-83 | on every book that Treasury's proposals alone have written, whatever was answered, refused or retracted, statements of adjacent periods join |
| Exposure.ComputeCapitalMetrics | ledger/src/core/application/dtos/positionUtils.ts:61-124 | the six accumulators are sums over the positions in each bucket; overdue, upcoming and undated add up to the open payables, and capital at risk is at most the open exposure |
| Balances.MetricsAreWhatIsLeftOpen | ledger/src/core/application/dtos/positionUtils.ts:61-124 | each figure is what is left open of some of the outstanding positions: not owed, not owed and untouched since the cutoff, owed, overdue, not due yet, and without a due date |
| Exposure.AggregateOpenBalancesByObjectType | ledger/src/infra/persistence/memory/InMemoryLedgerEventRepository.ts:368-383 | one row per type, and the rows of any set of types add up to the open balances of the positions of those types |
| Exposure.AddToRow | ledger/src/infra/persistence/memory/InMemoryLedgerEventRepository.ts:372-381 | one position changes its own type's row only |
| Balances.LinesAreWhatIsLeftOpen | ledger/src/infra/persistence/memory/InMemoryLedgerEventRepository.ts:368-383 | what the rows of some types add up to is what is left open of the outstanding positions of those types |
| Exposure.ComputePositionTotals | ledger/src/core/application/services/CashPositionService.ts:46-89 | each total is the sum of the rows of its types, and its lines are those rows; it fails exactly when a classified row is in another currency |
| Exposure.RowsInMeans | ledger/src/core/application/services/CashPositionService.ts:46-89 | the rows whose currency decides are those of the types some total counts |
| Exposure.PayableFoldsAgree | ledger/src/core/application/services/CashPositionService.ts:46-89 | on a single-currency book the two independent folds of open payables agree |
| Exposure.PublishBook | ledger/src/core/application/dtos/positionUtils.ts:61-124 | of a single-currency book, over the values of its own aggregate map: the metrics and the cash position publish one number of payables, the sum of its lines and of its three due states, and both health legs, read off the same book, lie in the unit interval |
| Exposure.ListedTalliesAreTheBooks | ledger/src/infra/persistence/memory/InMemoryLedgerEventRepository.ts:272-366 | every aggregate of a book holds the whole-book fold of its position, so natural sums |
| Exposure.AggregateClosureStats | ledger/src/infra/persistence/memory/InMemoryLedgerEventRepository.ts:444-461 | cash-settled and settled amounts of the window, the former at most the latter |
| Balances.ClosureStatsAreAmounts | ledger/src/infra/persistence/memory/InMemoryLedgerEventRepository.ts:444-461 | of the standing events of the window and currency that settle some position: what they amount to, and what the CASH_IN ones do |
| Exposure.HealthLegsAreBoundedAndClose | ledger/src/core/application/services/BookHealthService.ts:48-70 | both truncated ratios lie between 0 and 1 and within one ten-thousandth of the exact ratio |
| Canonical.SortedKeysAscend | ledger/src/core/domain/value-objects/EventHash.ts:22-27 | the keys are serialized in strictly ascending order |
| Canonical.ValuesAreRead | ledger/src/core/domain/value-objects/EventHash.ts:18-29 | a reader of the grammar of section 2 of RFC 8259, written on its own, reads every canonical text as the value it is the text of, whatever follows it |
| Canonical.QuotedIsRead | ledger/src/core/domain/value-objects/EventHash.ts:28 | it reads every quoted string back, escapes included (section 7 of RFC 8259) |
| Canonical.FieldsAreWrittenInOrder | ledger/src/core/domain/value-objects/EventHash.ts:22-26 | the fields it reads off an object come in strictly ascending order of their keys |
| Canonical.CanonicalizeIsPrefixFree | ledger/src/core/domain/value-objects/EventHash.ts:18-29 | no canonical text is a proper prefix of another, and equal texts come from equal values |
| Canonical.CanonicalizeIsInjective | ledger/src/core/domain/value-objects/EventHash.ts:18-29 | two values have one canonical text if and only if they are equal up to the order of keys |
| EventPayload.PayloadsAgreeOnHashedFields | ledger/src/core/domain/entities/LedgerEvent.ts:127-180 | two events hash the same object if and only if they agree on the hashed fields; currency, command id, reporter name and report instant are not among them |
| EventPayload.PayloadHoldsTheFact | ledger/src/core/domain/entities/LedgerEvent.ts:127-147 | what the hashed object holds under the eight keys of the fact |
| EventPayload.PayloadHoldsTheRecord | ledger/src/core/domain/entities/LedgerEvent.ts:148-180 | and under the nine of its record |
| HashChain.HashesCompareHashedFields | ledger/src/core/domain/value-objects/EventHash.ts:10-29 | with a collision-free digest, equal hashes are equal hashed fields |
| HashChain.OneHeadHashOneHistory | ledger/src/core/application/use-cases/CreateLedgerEventUseCase.ts:145 | two reachable books have one head hash if and only if they are equally long and agree on every hashed field of every event |
| Validation.ValidateFlow | ledger/src/core/domain/entities/LedgerEvent.ts:242-341 | the accumulated legs are judged by the effect's rule |
| Validation.RetractionsOnlyRetract | ledger/src/core/domain/policies/InvariantPolicy.ts:216-246 | a valid event carrying RETRACTS is a non-cash ledger correction that names its target and does nothing else |
| Validation.LegsFollowTheEffect | ledger/src/core/domain/entities/LedgerEvent.ts:242-341 | a valid event's legs are its amount on the moving side and nothing on the other, and balance for internal transfers |
| Validation.ContextualObjectsOnlyAnnotate | ledger/src/core/domain/policies/InvariantPolicy.ts:204-214 | a contextual object is only ever referenced, so no retraction can name one |
| Validity.TheFirstBrokenRuleIsReported | ledger/src/core/domain/policies/InvariantPolicy.ts:16-279 | an event is valid if and only if it breaks none of the thirty-six rules, each stated on its own; of those it breaks, the first in the order they are tried is reported |
| Moneys.FromDecimalAcceptsExactlyDecimals | ledger/src/core/domain/value-objects/Money.ts:31-49 | exactly digits with an optional one or two decimals, and a three-letter upper-case currency, are accepted |
| Moneys.ReadingBackWhatWasPrinted | ledger/src/core/domain/value-objects/Money.ts:96-103 | reading a printed amount gives the amount, for every number of units |
| Moneys.CanonicalTextsArePrintedVerbatim | ledger/src/core/domain/value-objects/Money.ts:31-103 | a text with two decimals and no leading zeros is printed back as it was read |
| Moneys.SpellingsOfOneAmount | ledger/src/core/domain/value-objects/Money.ts:31-50 | every accepted spelling denotes what its longest one does: no decimals are two zeros, one decimal counts tenths, leading zeros count nothing |
| Moneys.PrintedTextIsTheUniqueCanonicalSpelling | ledger/src/core/domain/value-objects/Money.ts:31-103 | every accepted text prints as the one canonical spelling of its amount |
| Moneys.ToStringIsInjective | ledger/src/core/domain/value-objects/Money.ts:96-103 | two amounts print alike if and only if their units are equal: the text does not carry the currency |
| Pagination.FindByKeyset | ledger/src/infra/persistence/memory/InMemoryLedgerEventRepository.ts:463-557 | filter, sort, cut after the cursor and take a page: the page and its next cursor |
| Pagination.ListingIsTheOrderedMatches | ledger/src/infra/persistence/memory/InMemoryLedgerEventRepository.ts:463-509 | the listing holds each matching event once, in the order of the axis with ties broken by id |
| Movements.MovementsAreListedExactly | ledger/src/infra/persistence/memory/InMemoryLedgerEventRepository.ts:463-495 | what is listed, filter by filter: the standing cash events of the effect asked for, at or after the one bound and at or before the other, that the party received or paid |
| Movements.MovementsAreListedInOrder | ledger/src/infra/persistence/memory/InMemoryLedgerEventRepository.ts:497-509 | by the instant asked for, earlier or later first as asked, ties by id in the same direction |
| Pagination.KeysetPagesAreNumberedPages | ledger/src/infra/persistence/memory/InMemoryLedgerEventRepository.ts:511-557 | following the cursor after the items of the pages before it serves the numbered page |
| Pagination.NumbersBelowOneAskForTheFirst | ledger/src/infra/persistence/memory/InMemoryLedgerEventRepository.ts:511-523 | a page number below one asks for the first page, and every page tells how many events are listed |
| Pagination.FollowingTheCursorServesTheListing | ledger/src/infra/persistence/memory/InMemoryLedgerEventRepository.ts:463-557 | on a fixed store, following the cursor until it is null terminates and serves the listing, each event once, for any limit, axis and direction |
| Pagination.NoEventIsServedTwice | ledger/src/infra/persistence/memory/InMemoryLedgerEventRepository.ts:463-557 | whatever the store becomes between calls, no event is served twice, ties of instant included |
| Pagination.NothingIsSkipped | ledger/src/infra/persistence/memory/InMemoryLedgerEventRepository.ts:463-557 | an event in every store of a finished walk, matching in each of them and after the starting cursor, is served |
| EditDistance.EditDistance | treasury/src/core/domain/services/PartyNormalization.ts:59-76 | the single-row loop returns the Levenshtein distance |
| EditDistance.NextRow | treasury/src/core/domain/services/PartyNormalization.ts:66-73 | one pass turns the row of one prefix into that of the next |
| EditDistance.DistanceIsTheLeastNumberOfEdits | treasury/src/core/domain/services/PartyNormalization.ts:59-76 | the distance is at most n if and only if some chain of at most n insertions, deletions and substitutions turns one text into the other |
| EditDistance.NoChainIsShorter | treasury/src/core/domain/services/PartyNormalization.ts:59-76 | no chain of edits is shorter than the distance |
| EditDistance.ShortestChain | treasury/src/core/domain/services/PartyNormalization.ts:59-76 | and a chain of that length exists |
| EditDistance.ZeroIsEqual | treasury/src/core/domain/services/PartyNormalization.ts:59-76 | distance zero means equal |
| EditDistance.EqualIsZero | treasury/src/core/domain/services/PartyNormalization.ts:59-76 | equal means distance zero |
| EditDistance.IsSymmetric | treasury/src/core/domain/services/PartyNormalization.ts:59-76 | the distance is symmetric |
| EditDistance.Triangle | treasury/src/core/domain/services/PartyNormalization.ts:59-76 | the triangle inequality |
| EditDistance.LengthBounds | treasury/src/core/domain/services/PartyNormalization.ts:59-76 | the distance is at least the difference of lengths and at most the longer length |
| EditDistance.Similarity | treasury/src/core/domain/services/PartyNormalization.ts:82-87 | similarity lies between 0 and 1, and is 1 exactly for equal texts |
| SnapshotRefresher.PositionSnapshot.Remember | treasury/src/core/application/services/PositionSnapshot.ts:67-75 | each position is remembered under its id, the last one winning |
| SnapshotRefresher.AnswersAreRemembered | treasury/src/core/application/services/PositionSnapshot.ts:67-75 | a position is remembered as it was answered last, as old as the call |
| SnapshotRefresher.OtherEntriesAreKept | treasury/src/core/application/services/PositionSnapshot.ts:67-75 | what was not answered stays as it was |
| SnapshotRefresher.PositionSnapshot.InvalidateAll | treasury/src/core/application/services/PositionSnapshot.ts:91-93 | exactly the given positions are forgotten |
| SnapshotRefresher.LedgerEventFeed.RecentlyRecorded | treasury/src/core/application/ports/LedgerEventFeedPort.ts:1-20 | a page of the newest-first listing as the log stands when it is read, after whatever else happened meanwhile |
| SnapshotRefresher.ScanPage | treasury/src/core/application/services/SnapshotRefresher.ts:61-67 | every event before the cursor on the page has its positions touched, and the cursor is met iff it is there |
| SnapshotRefresher.SnapshotRefresher.WalkOnePage | treasury/src/core/application/services/SnapshotRefresher.ts:53-69 | one more page joins what was walked without a gap, however the log grew since the last |
| SnapshotRefresher.SnapshotRefresher.WalkBack | treasury/src/core/application/services/SnapshotRefresher.ts:53-69 | the walk meets the cursor with every event above it touched, or more than the page bound was recorded |
| SnapshotRefresher.SnapshotRefresher.Refresh | treasury/src/core/application/services/SnapshotRefresher.ts:48-90 | one sweep, its whole effect: from a cursor in the log it forgets exactly the positions of what it walked over, all of them named above the cursor, or everything once more than the page bound was recorded; an honest cache stays honest up to the newest event seen, which is no older than the sweep; after a first sweep it is honest if and only if nothing was left stale by then |
| SnapshotRefresher.KeepSweeping | treasury/src/core/application/services/SnapshotRefresher.ts:48-90 | any number of sweeps from the first that sets a cursor: the cache is honest at every moment if and only if nothing was left stale by the first, a condition on the cache before and the actions until its page is read; what it found stale stays so while nobody names, reads or forgets it and no sweep gives up |
| SnapshotRefresher.FreshnessIsForeseen | treasury/src/core/application/services/SnapshotRefresher.ts:71-76 | whether the cache will be fresh is decided beforehand, position by position: absent, current or stale, a touch makes it stale, a read current, a forgetting absent |
| SnapshotRefresher.DormantOutlivesTheSweep | treasury/src/core/application/services/SnapshotRefresher.ts:61-69 | a stale answer that no event above the cursor names is still there after a later sweep |
| SnapshotRefresher.OneMorePage | treasury/src/core/application/services/SnapshotRefresher.ts:53-69 | pages read at different moments overlap rather than leave a gap, since the listing only grows at its head |
| SnapshotRefresher.HonestyOutlivesActions | treasury/src/core/application/services/SnapshotRefresher.ts:19-37 | recording, reading and forgetting between sweeps never make the cache dishonest |
| SnapshotRefresher.ForgettingTheTouchedIsEnough | treasury/src/core/application/services/SnapshotRefresher.ts:87-89 | forgetting what was touched moves the promise from the old cursor to the newest event seen |
| SnapshotRefresher.FirstSweepKeepsStaleEntries | treasury/src/core/application/services/SnapshotRefresher.ts:71-76 | a concrete refresher, swept any number of times: an answer read and then touched before the first sweep is in the cache afterwards, stale |
| RetryProtocol.SubmitCandidateUseCase.Execute | ledger/src/core/application/use-cases/SubmitCandidateUseCase.ts:45-69 | look the key up, validate, then create: the outcome and the book after it |
| RetryProtocol.Intent.MarkSubmitted | treasury/src/core/domain/entities/Intent.ts:63-69 | only an intent awaiting confirmation becomes submitted |
| RetryProtocol.Intent.Record | treasury/src/core/domain/entities/Intent.ts:51-55 | the answer is recorded over any earlier one, every other answer is kept, and the intent gathers again |
| RetryProtocol.TheLastAnswersAreSubmitted | treasury/src/core/domain/entities/Intent.ts:51-55 | after some answers are recorded the intent answers each of them so and every other slot as before, and so does the copy its next submission is built from |
| RetryProtocol.ANewIntentGathers | treasury/src/core/domain/entities/Intent.ts:22-37 | an intent begins with nothing answered and nothing decided, and submitting it does nothing until its answers are complete |
| RetryProtocol.Intent.MarkAccepted | treasury/src/core/domain/entities/Intent.ts:81-85 | accepted, with the reference, and nothing else changed |
| RetryProtocol.Intent.MarkRejected | treasury/src/core/domain/entities/Intent.ts:87-91 | rejected, with the reason, and nothing else changed |
| RetryProtocol.InMemoryIntentRepository.FindById | treasury/src/infra/persistence/InMemoryIntentRepository.ts:12-15 | a fresh copy of what is stored |
| RetryProtocol.SubmitIntentUseCase.Begin | treasury/src/core/application/use-cases/SubmitIntent.ts:45-61 | load a copy, guard it, build the candidate: nothing is saved before the reply |
| RetryProtocol.SubmitIntentUseCase.Dispose | treasury/src/core/application/use-cases/SubmitIntent.ts:61-114 | the copy is marked by the outcome and saved over what the repository holds by then |
| RetryProtocol.HandlingIsFair | ledger/src/core/application/use-cases/SubmitCandidateUseCase.ts:45-69 | one delivery appends at most one event; an acceptance names an event under the key, a rejection appends none |
| RetryProtocol.RunsKeepTheInvariant | treasury/src/core/application/use-cases/SubmitIntent.ts:45-115 | over every run with requests and replies lost, repeated and delayed, other producers and edits: every reply of acceptance and every stored reference is the id of an event under that intent's key |
| RetryProtocol.AtMostOneEventPerIntent | ledger/src/core/application/use-cases/SubmitCandidateUseCase.ts:46-49 | over every such run the book holds at most one event per intent |
| RetryProtocol.EveryRetryReturnsTheEvent | ledger/src/core/application/use-cases/SubmitCandidateUseCase.ts:46-49 | once the event is recorded, every later delivery answers with its id and appends nothing, whatever its candidate says by then |
| RetryProtocol.StoredReferencesAreTheEvent | treasury/src/core/application/use-cases/SubmitIntent.ts:63-73 | a stored ledger reference is that event's id, and every accepted intent stores one |
| RetryProtocol.SourcesAndCommandsStayUnique | ledger/src/core/application/use-cases/CreateLedgerEventUseCase.ts:27-35 | over every such run no two events share a source reference, nor a command id other than none or the empty one |
| RetryProtocol.RetryRecoversALostReply | treasury/src/core/application/use-cases/SubmitIntent.ts:45-73 | while the intent can still be submitted, one undisturbed round after a lost reply leaves the book alone and the intent accepted with the id |
| RetryProtocol.ARoundDecidesTheIntent | treasury/src/core/application/use-cases/SubmitIntent.ts:45-115 | what one undisturbed round makes of an intent after any run: accepted with the reference; awaiting correction when a slot can be asked again; rejected with the reason when none can; its answers and every other intent stay as they are |
| Acceptances.AcceptancesSurviveExactlyWithoutAPendingRejection | treasury/src/core/application/use-cases/SubmitIntent.ts:61-114 | at any moment of any run, an accepted intent stays accepted through every continuation that does not edit it if and only if no rejection is pending for a submission of it that still waits |
| Acceptances.AcceptancesAreFinalWithoutOverlap | treasury/src/core/application/use-cases/SubmitIntent.ts:45-73 | when no submission of an intent begins while another one of it waits for its reply, an acceptance is final: only an edit changes it |
| RetryProtocol.ReferencesAreNotShared | treasury/src/core/application/use-cases/SubmitIntent.ts:63-73 | over every run, two intents never hold one reference |
| RetryProtocol.CommandIdsAreUniqueButForTheEmptyOne | ledger/src/core/application/use-cases/CreateLedgerEventUseCase.ts:27-30 | over every run, the command ids that are present are unique if and only if at most one event carries the empty one |
| LateReplies.ALateRejectionOverwritesAnAcceptance | treasury/src/core/application/use-cases/SubmitIntent.ts:103-106 | a run from the start that overwrites an acceptance, in any deployment: a reversal of an entitlement is submitted twice with overlap; the first request finds an empty book and is refused for want of a previous hash, which names no field to correct; another producer records an event; the second is accepted; the replies arrive in the other order and the intent ends rejected |
| Reissue.SettleReason | treasury/src/core/application/services/CandidateMapper.ts:654-716 | the reason as the reassignments leave it: orphan, then retroactive, then the unidentified counterparty |
| Reissue.PlanReissue | treasury/src/core/application/services/CandidateMapper.ts:569-627 | the scenario, the recovered branch and the answers, or the reason there is no plan |
| Reissue.RestatingDescribesTheSameFact | treasury/src/core/application/services/CandidateMapper.ts:569-740 | for every non-correction scenario and any answers, the plan of the entry `build` produced names the same scenario, and building from its answers gives the same type, effect, roles, directions, object types and relations, amount, currency, date, description and lineage; the parties are kept iff the counterparty is not the usina, the positions iff the scenario can name them, the due date never, the cause unless it becomes retroactive |
| Reissue.TheBranchIsRecovered | treasury/src/core/application/services/CandidateMapper.ts:602-613 | exactly one choice explains the recorded object, and choosing it gives that object again, also when the recorded answer was no known choice |
| Reissue.PartiesAreKeptUnlessTheUsinaPaysItself | treasury/src/core/application/services/CandidateMapper.ts:615-618 | who took part is kept if and only if the counterparty is not the usina, or none is named |
| Reissue.TheUsinaPayingItselfIsLost | treasury/src/core/application/services/CandidateMapper.ts:615-618 | a concrete payment whose payee is the usina: restating it loses the payee |
| Reissue.DueDatesAreLost | treasury/src/core/application/services/CandidateMapper.ts:722-732 | a concrete obligation with a due date: restating it loses the date |
| Reissue.PositionsAreKeptWhereTheyCanBeNamed | treasury/src/core/application/services/CandidateMapper.ts:619-621 | the object ids are kept if and only if the scenario declares a slot for them, or the minting reference is the same |
| Reissue.CausesAreKeptUnlessTheyBecomeRetroactive | treasury/src/core/application/services/CandidateMapper.ts:684-691 | the cause is kept, except that a restated recognition always points at its position and so becomes retroactive |
| Reissue.CorrectionsAreNotRestated | treasury/src/core/application/services/CandidateMapper.ts:587-591 | of what `build` makes, exactly the rectifications have no plan |
| Reissue.FirstScenarioSearches | treasury/src/core/application/services/CandidateMapper.ts:583-585 | the first mapping of an event type is the only one; a commission split has none |
| Reissue.ChoicesAreDistinguishing | treasury/src/core/application/services/CandidateMapper.ts:152-418 | in every scenario with variants each choice produces an object no other choice explains |
| Reissue.TrimIsIdempotent | treasury/src/core/application/services/CandidateMapper.ts:661-682 | a trimmed answer trims to itself |
| Reissue.TrimStripsWhiteSpace | treasury/src/core/application/services/CandidateMapper.ts:661-682 | only white space is stripped, and all of it at either end |
| Reissue.WhatIsPendingIsDeclared | treasury/src/core/application/services/CandidateMapper.ts:654-716 | follow-up is required if and only if an origin that could be named is not, a party is not identified, or a correction is to follow; and the wording notes an unidentified party |
| Reissue.PositionsOfACandidateAreDistinct | treasury/src/core/application/services/CandidateMapper.ts:693-697 | the positions one candidate names have different ids |
| Admission.ProposalsAreAdmitted | treasury/src/core/application/services/CandidateMapper.ts:638-740 | of what `build` makes, for any scenario and answers, the Ledger's rules for a single event refuse exactly what asks for a zero amount and what lacks a required origin, a chain to link to, or a place for its due date, and which of these they report; no tuple, mold or reason is ever the cause |
| Admission.CandidatesAreRecordedExactly | ledger/src/core/application/use-cases/CreateLedgerEventUseCase.ts:26-218 | from the answers to the book: whatever the answers, a candidate `build` makes is recorded by the write step if and only if its amount can be read and is not zero, its identities are new, the lineage, retraction and settlement guards let it through, and it brings a required origin, a book to link to, and a due date only where one can be due |
| Admission.DraftsAreProposals | ledger/src/core/application/use-cases/SubmitCandidateUseCase.ts:95-137 | the draft the Ledger makes of a candidate with a readable amount, through the command mapping, is the event the lemmas on proposals speak of |
| Admission.EveryScenarioIsAdmitted | treasury/src/core/application/services/CandidateMapper.ts:152-418 | every tuple a scenario can emit, in every branch and under every reason it can give, is in the contract and the three matrices |
| Submission.IntentsAreRecordedExactly | ledger/src/core/application/use-cases/SubmitCandidateUseCase.ts:45-69 | over the whole submit path, for any deployment, scenario and answers: the submission of an intent records an event if and only if the user and every party have an id, the amount can be read and is not zero, nothing is recorded under its identities, the guards let it through, and it brings the origin, the chain link and the due date its scenario must or may bring |
| Submission.CandidatesAreWellStated | ledger/src/core/application/services/StagingRecordValidator.ts:45-60 | the validator finds nothing in a candidate with a readable amount exactly when the user and every party have an id: parties, objects, their ids and the wording of the reason never fail |
| Submission.NamedFieldsAreAskedAgain | treasury/src/core/application/use-cases/SubmitIntent.ts:76-106 | for a usina that has an id, a rejected intent is asked again if and only if the rejection names a field: no field the Ledger names about what `build` makes lacks a slot in its scenario, so the terminal branch is left to duplicates and internal refusals |
| Faults.WhatIsAskedAgainWasWrong | ledger/src/core/application/services/RejectionCatalog.ts:64-126 | every slot a rejection asks again holds an answer that is wrong: an amount absent, no decimal, zero or more than a position has left; a currency or a counterparty absent; an origin not stated, not in the book, or not allowed |
| Staging.StagingRecordValidator.Validate | ledger/src/core/application/services/StagingRecordValidator.ts:45-60 | every failure of a typed record, in the order of the checks, the duplicate source reference last |
| Staging.StagingRecordValidator.ValidateParties | ledger/src/core/application/services/StagingRecordValidator.ts:127-168 | the loop over the parties reports each one without an id, by its index, and a record without parties once |
| Staging.PassesExactly | ledger/src/core/application/services/StagingRecordValidator.ts:45-60 | a record passes if and only if every field is stated, the amount is a decimal, every party and object has an id, the reason is worded, and its source reference is not in the book |
| Staging.UnnamedPartiesArePointedAt | ledger/src/core/application/services/StagingRecordValidator.ts:136-143 | a failure that names a party points at one without an id |
| Admission.ProposalsFlow | treasury/src/core/application/services/CandidateMapper.ts:126-150 | every party mold balances as its effect requires |

## Left out

- Interleaving inside one `execute`: its guards and its save are not one transaction, and each command is one atomic step here.
- The SQL engine, type mapping, indexes, NULL ordering and the ordering of the SQL `getLastEventHash`; the queries are modelled by what they mean.
- The outcome filters of the position listing (`outcomeToSql` and its in-memory twin): they do not agree with the outcome `project` derives for positions of unknown origin, so nothing is claimed of them.
- `eventCount`, `objectType` and `origin` as `project` publishes them: it also reads retracted events for those, so they are not part of the equivalence with the listing.
- SHA-256, UUIDs, ISO formatting and time zones: functions of the environment, constrained only by the hypotheses named above.
- UTF-16 code units: strings are sequences of characters, and lengths count those.
- `normalizeName`, `normalizeDocument` and accent stripping, and the sorting of lines by weight and locale.
- HTTP, authentication, message queues, the worker pipelines, the web client, dashboards, audit logs, prompts and the wording of rejections.
- The staging validator's checks of codes, instants and source systems: records here are typed by the vocabulary, their instants are read, and the submit path stamps a known source system, so those failures cannot occur.
- The words of a refusal: rejections are classified by what is refused, not by the text of its message, so a message that quotes a user's text holding the words of another message is not represented.
- Dialog slots and the party directory: `Answer` steps record any answers, and restating assumes the directory resolves the counterparty it is given.
- The optional parts of `SubmitRectification`: which fields a correction overrides, and its two submissions.
- The `add`, `subtract` and comparison of `Money`: additions appear inside the folds, with the currency check where the source's result depends on it.
- The timestamps of intents and of audit entries.
- Dispatch of a page number or cursor by the pagination endpoint, and the encoding of the cursor.
- RetryProtocol.SubmitIntentUseCase.Dispose: in the protocol, which rejections have a slot to fix is an arbitrary function of the intent and the reasons; `Submission.SiteOf` is the one the source computes.
- Submission.IntentsAreRecordedExactly: the party directory is a fixed set of unidentified ids, and an intent without a candidate (no such scenario, or a date that cannot be read) sends nothing.
- SnapshotRefresher.SnapshotRefresher.Refresh: of a cursor that is not an event of the log it says only what is left of the cache, since the walk then forgets whatever it passes.
