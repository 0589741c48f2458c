# Sentinel: integrity proofs

Sentinel claims no duplicate exposure, no lost fill, and projections that can be
rebuilt exactly. This project models the code those claims rest on and proves
them, together with the accounting and the log underneath.

**A. The order-integrity protocol.** `Lifecycle` is the pure transition function
the ledger folds and `RustLifecycle` its twin in the engine, on int64.
`Ledger` says what each transaction does to the event table and its projections
and `LedgerStores` does it in place. `Protocol` is the whole system as a labelled
transition system: tasks hold an instrument's lock and act one ledger transaction
or one broker call at a time, position imports take no lock, the broker says
whatever the moves say, and a crash may fall between any two steps, after which
only the ledger is left. `ProtocolSafety`, `Submissions`, `EntryDiscipline` and
`Exits` hold the invariants of every run; `Engine` and `Protection` hold the
engine, the reconciler and the protective-exit supervisor as classes, each method
proved to leave what the uninterrupted task leaves, so that what every schedule
keeps the methods keep. `Uncovering` holds runs in which the cover of a position
is lost. `ReconcileLoops` is the loop around the reconciler.

**B. Fixed-point accounting.** `Fixed` and `DecimalText` are the int64 decimals,
`Positions` the gateway's position with wrapping arithmetic and its laws,
`AverageCost` the exact average-cost walk and the distance to it, `Books` the
gateway's book and `Adversary` the independent recomputation, `Bars` the two folds
of the marks.

**C. The log and its readers.** `Crc32c` is the checksum, `JournalFormat` the
frame, `JournalDirectory` the segments as a writer leaves them, `Tailing` the
reader that follows them, and `Projecting` the projector that copies them into a
table.

Ledger quantities are decimals and are modelled as reals; the engine's, the
gateway's and the journal's are int64 or machine words and are modelled as such,
with wrap-around, saturation and truncation written out. Where the code does
something its documentation does not say, the code is what is modelled:

- `apply_event` runs the transition before it looks at the execution id, so a
  duplicate delivered to a finished order is refused before it is recognised as a
  duplicate; either way it changes nothing durable, and in the first case the
  engine reopens the order.
- A cancel confirmation for a canceled order is accepted and changes nothing,
  although the allowed-transition map has no such edge.
- While an order is reconciling, repeated over-matches are each tolerated, so the
  ceiling of twice the quantity holds only between reconciliations
  (`Lifecycle.ReconcilingForgetsExcess`).
- `fixed.Parse` does not range-check the fraction (`DecimalText.OverflowIsSilent`),
  and `String` does not write the shortest exact text of an amount below one:
  ".5" is shorter than "0.5" (`DecimalText.ShortestExactly`).
- The Python exit guard does not look at the side of an exit; the engine's does
  (`RustGuards.ExitGuardsAgreeWhenClosing`).
- At the largest int64 the engine's position cap is void
  (`RustGuards.EntryAllowedExactly`).
- A tailer asked for records the log no longer begins with starts at the first
  frame there is and reports nothing (`Tailing.OpenTailer`).
- The journal format document's segment table gives version 1; the reader speaks
  version 2.

## Model

| member | source | states |
|---|---|---|
| Lifecycle.StepFacts | src/sentinel/domain/transition.py:64-185 | an accepted event keeps 0 <= filled <= qty and the authorised fields, follows the map except for a repeated cancel confirmation, leaves UNKNOWN and finished states only for RECONCILING and RECONCILING only by resolution, and moves the recorded fill only by fills and resolutions, clamped |
| Lifecycle.RunFromCreated | src/sentinel/domain/transition.py:69-139 | on every run of a created order the fill stays within the quantity, the authorisation never changes and SUBMITTING is entered at most once |
| Lifecycle.GrossCeiling | src/sentinel/domain/transition.py:102-139 | in any stretch free of reconciliation the starting fill plus everything executed stays within twice the quantity, and the recorded fill is exactly its clamp |
| Lifecycle.CarriesClampStep | src/sentinel/domain/transition.py:102-139 | one event keeps the recorded fill equal to the clamp of the gross, whatever was clamped before |
| Lifecycle.ReconcilingForgetsExcess | src/sentinel/domain/transition.py:117-139 | while reconciling, any number of full-size over-matches is accepted and leaves the order as it was: no multiple of the quantity bounds what is executed |
| RustLifecycle.GrossCeiling | rust/crates/sentinel-domain/src/transition.rs:175-183 | the checked additions give twice the quantity, or overflow exactly when that leaves int64 |
| RustLifecycle.AllowedAgree | rust/crates/sentinel-domain/src/state.rs:50-146 | the engine's lists and the ledger's map allow the same moves and name the same finished states |
| RustLifecycle.FillsAgree | rust/crates/sentinel-domain/src/transition.rs:185-260 | on fills the engine and the ledger accept, refuse and record alike, short of overflow |
| RustLifecycle.ResolutionsAgree | rust/crates/sentinel-domain/src/transition.rs:110-155 | on resolutions they agree short of overflow, except that the engine keeps a venue id the ledger forgets |
| RustLifecycle.LifecyclesAgree | rust/crates/sentinel-domain/src/transition.rs:39-312 | for every order and event short of overflow both lifecycles give the same verdict for the same reason, and the same order if and only if no known venue id is dropped by a resolution without one |
| RustLifecycle.OverflowExactly | rust/crates/sentinel-domain/src/transition.rs:175-260 | the events on which the engine reports overflow, exactly |
| Ledger.RowsOnlyAdvance | src/sentinel/ledger/store.py:358-377 | a projected order differs from an earlier reading only with a later sequence |
| Ledger.GuardMeansCurrent | src/sentinel/ledger/store.py:358-377 | a snapshot that passes the last_event_seq guard is the current projection, field for field |
| Ledger.CreateKeepsConsistent | src/sentinel/ledger/store.py:193-249 | persisting an intent, or replaying one, keeps the projections equal to the fold of the log |
| Ledger.ApplyKeepsConsistent | src/sentinel/ledger/store.py:288-391 | applying an event from any snapshot ever loaded, with its duplicates, refusals and rollbacks, keeps the projections equal to the fold of the log |
| Ledger.RebuildEqualsLive | src/sentinel/ledger/store.py:662-757 | after any sequence of calls, stale, repeated or refused, rebuilding yields exactly the live orders, fills and positions |
| LedgerStores.LedgerStore.CreateOrder | src/sentinel/ledger/store.py:193-249 | the in-place transaction is the specified one and returns its row |
| LedgerStores.LedgerStore.LoadOrder | src/sentinel/ledger/store.py:251-255 | finds the order with the key, or none has it |
| LedgerStores.LedgerStore.BookFill | src/sentinel/ledger/store.py:338-357 | one fill row more, and the signed quantity on one position |
| LedgerStores.LedgerStore.ApplyEvent | src/sentinel/ledger/store.py:288-391 | tables, log and sequence move as specified or not at all, and fills_version counts the fill rows added |
| LedgerStores.LedgerStore.RebuildProjections | src/sentinel/ledger/store.py:662-757 | replaces the projections with the fold of the log whatever they held, or changes nothing where the fold raises |
| LedgerStores.FoldRow | src/sentinel/ledger/store.py:676-717 | one event row folded, with dedup during replay |
| Accounting.CreateKeepsBalanced | src/sentinel/ledger/store.py:193-249 | creating an order keeps execution ids distinct and every position the signed sum of the fill rows |
| Accounting.ApplyKeepsBalanced | src/sentinel/ledger/store.py:288-391 | applying any event keeps every position the signed sum of the fill rows |
| Accounting.ApplyKeepsConserved | src/sentinel/domain/transition.py:117-139 | applying an event keeps every recorded fill the clamp of its distinct executions |
| Accounting.ClampOfSum | src/sentinel/domain/transition.py:129-133 | clamping fill by fill is clamping the total |
| LedgerHistory.ApplyKeepsGood | src/sentinel/ledger/store.py:288-391 | from any snapshot ever loaded a transaction keeps replay, balance, conservation and the record, and either changes no table or started from the current row |
| LedgerHistory.CreateKeepsGood | src/sentinel/ledger/store.py:193-249 | persisting an intent keeps all of it, and its row is loaded |
| LedgerHistory.IdentityIsFixed | src/sentinel/ledger/store.py:364-377 | key, instrument, quantity, side and authority of an order never change |
| Guards.EntryStaysUnderCap | src/sentinel/oms/guards.py:42-69 | an accepted entry is never enlarged, never takes the position past its cap, and is cut only where it would, to exactly what the cap leaves; it is refused exactly where that is nothing |
| Guards.ExitTakesWhatIsFree | src/sentinel/oms/guards.py:71-84 | an accepted exit is never enlarged and is cut only to exactly what live exits have not claimed; it is refused exactly where that is nothing |
| Guards.HoldsAre | src/sentinel/oms/guards.py:42-58 | an instrument is held by an order that is UNKNOWN or RECONCILING, and taken by an entry that is not finished |
| ProtocolSafety.ActGood | src/sentinel/oms/writer.py:91-215 | every atomic step of every task keeps the ledger good and holds only rows the ledger showed |
| ProtocolSafety.RunsAreSane | src/sentinel/oms/writer.py:91-215 | so does every run, with imports, interleavings and crashes |
| ProtocolSafety.CrashIsNeutral | src/sentinel/recon/reconciler.py:237-251 | recovering after a crash rebuilds the tables that were there |
| ProtocolSafety.FillsAreConserved | src/sentinel/recon/reconciler.py:116-211 | in every reachable state each recorded fill is min(qty, distinct executions), each position is the signed sum of all fill rows, and replay changes nothing |
| ProtocolSafety.OnlyNewExecutionsCount | src/sentinel/recon/reconciler.py:162-211 | resolving, reopening, submitting or redelivering a booked execution moves no fill row, no position and no recorded fill |
| Submissions.RunsSubmitOnce | src/sentinel/oms/writer.py:91-137 | every run keeps submissions distinct, each backed by the log, and one starter per order |
| Submissions.AtMostOneSubmission | src/sentinel/oms/writer.py:91-137 | across every interleaving, crash, restart and replayed command the broker is asked to submit a key at most once, and only when its intent and the start of its submission are in the log, in that order |
| EntryDiscipline.NoOpenEntryMeansOver | src/sentinel/oms/guards.py:54-57 | where the second guard passes, every entry placed on the instrument has been finished |
| EntryDiscipline.RunsAreOrderly | src/sentinel/oms/writer.py:91-137 | every run whose keys name one instrument each keeps the entry discipline |
| EntryDiscipline.EntriesAreExclusive | src/sentinel/oms/guards.py:42-58 | whenever an entry was submitted nothing on its instrument was UNKNOWN or RECONCILING, and of the entries placed on an instrument at most one has never been finished |
| Engine.FinishIsASchedule | src/sentinel/oms/writer.py:91-215 | letting a task run to its end is a run of the system that releases its lock |
| Engine.OrderEngine.EnqueueReconcile | src/sentinel/oms/writer.py:77-87 | queues a key unless it is pending, says which, and leaves it pending |
| Engine.OrderEngine.Guarded | src/sentinel/oms/guards.py:42-89 | an entry is refused exactly where an order on its instrument is in doubt, another entry is unfinished, or the cap leaves nothing, and else gets all it asks for or all the cap leaves; an exit gets all it asks for or all that is unclaimed |
| Engine.OrderEngine.Place | src/sentinel/oms/writer.py:91-137 | leaves what the placement task leaves; a replayed key is never submitted nor blocked; a new key is blocked exactly by the guards and else submitted as one order more, for the quantity the guards allow, on the intent's side, in the state the broker's answer means; exactly a replay frozen mid-submission and a timeout queue the key, so no order is left in doubt without its key waiting |
| Engine.OrderEngine.RequestCancel | src/sentinel/oms/writer.py:141-157 | leaves what the cancel task leaves, and queues the key exactly when a cancel that could be asked for times out |
| Engine.OrderEngine.OnBrokerEvent | src/sentinel/oms/writer.py:161-215 | books evidence, disowns unknown keys, and reopens and queues an order exactly when the report contradicts what is on record |
| Engine.NewOrderIsSubmitted | src/sentinel/oms/writer.py:110-137 | a new key runs from CREATED through SUBMITTING to WORKING with the broker's id, REJECTED or UNKNOWN, adding one order as the intent has it and touching nothing else |
| Engine.OneOrderMoves | src/sentinel/ledger/store.py:288-391 | an event applied to an order just read moves that order and no other, and is turned away only by the lifecycle or as a duplicate |
| Engine.Reconciler.PassUnderLock | src/sentinel/recon/reconciler.py:116-211 | one pass on a freshly loaded order leaves what the uninterrupted reconciliation task leaves, and each ending says what is then on record: working, partial, filled, canceled or rejected exactly as at the broker, with its id and count; short of it; beyond it; or a report the lifecycle refuses |
| Engine.Reconciler.Backfill | src/sentinel/recon/reconciler.py:162-211 | books every reported execution, then resolves to the report, waits when the count is short or diverges when it is beyond, and turns down only a report past the gross ceiling or of nothing |
| Engine.Reconciler.ReconcileOrder | src/sentinel/recon/reconciler.py:86-227 | an unknown key diverges, a finished order settles as it is without a pass, and otherwise pass follows pass, each on the broker's latest answer, for as long as they leave the order short and at most four times; the last one's verdict is the outcome, the order on record the one returned; no other order moves and the ledger stays good |
| Engine.Reconciler.StartupRecovery | src/sentinel/recon/reconciler.py:237-251 | whatever the projections held, rebuilds them from the log and reconciles every unfinished order in turn, oldest first, each on the broker's answers for it, up to the first that does not settle; unless it halts, every order in the store is then finished, WORKING or PARTIAL |
| Exits.SlackMoves | src/sentinel/oms/guards.py:71-84 | a fill and the opening of a reconciliation take exactly what the fill takes off the position beyond the claim of the exit it fills, or the remainder of the finished exit that is opened; no other event takes anything |
| Exits.ApplyKeepsSlack | src/sentinel/oms/guards.py:71-84 | an event leaves at least the unclaimed position there was if and only if it takes none |
| Exits.ApplyFitsExactly | src/sentinel/ledger/store.py:600-609 | the claims go on fitting after an event if and only if it takes no more than is unclaimed |
| Exits.CoverIsLostExactly | src/sentinel/ledger/store.py:600-609 | live exits come to claim more than is held exactly where an event takes more than is unclaimed |
| Exits.CoverHoldsExactly | src/sentinel/ledger/store.py:600-609 | in every run whatever, live exits never claim more than the position if and only if no move takes more than is unclaimed when it is made |
| Exits.CreationFits | src/sentinel/oms/guards.py:71-84 | the order a guard promised uses the unclaimed position and no more |
| Exits.NextFits | src/sentinel/oms/guards.py:71-84 | one move of the whole system leaves the claims, with what the guard has measured or allowed and not yet recorded, within the position if and only if its event takes no more than the rest; an exit the guard lets through always fits |
| Exits.ExitsNeverOverreach | src/sentinel/oms/guards.py:71-84 | in every run claims and reservations fit all along if and only if no event takes more than the position neither claimed nor reserved: the guard answers for every exit it lets through |
| Exits.OverMatchUncovers | src/sentinel/ledger/store.py:600-609 | an exit's execution loses the cover if and only if it takes more off the position than its claim and what is unclaimed |
| Exits.OpeningOverMatchKeepsCover | src/sentinel/domain/transition.py:117-139 | within its remainder, or on the opening side however large, an exit's execution takes nothing |
| Exits.ShrinkingFillUncovers | src/sentinel/recon/reconciler.py:290-317 | an entry's fill loses the cover if and only if it shrinks the position by more than is unclaimed |
| Exits.ReopeningUncovers | src/sentinel/oms/writer.py:161-215 | reopening a finished exit loses the cover if and only if its remainder is more than is unclaimed |
| Uncovering.ImportUncovers | src/sentinel/recon/reconciler.py:290-317 | a run in which an import, which takes no lock, closes a position under the exit that covers it |
| Uncovering.ImportOutruns | src/sentinel/oms/guards.py:71-84 | a run in which an import closes a position the guard has measured and not yet claimed: it takes no more than is unclaimed, and the exit placed next overreaches |
| Uncovering.OverMatchReached | src/sentinel/domain/transition.py:117-139 | a run in which an exit filled to twice its size closes the position under another |
| Uncovering.ReopeningReached | src/sentinel/oms/writer.py:161-215 | a run in which a rejected exit is replaced and then reported filled, and both claim the position |
| Protection.ExitIsPlaced | src/sentinel/protect/supervisor.py:43-72 | an exit for the uncovered quantity is placed whole and claims exactly that, unless the broker declines it |
| Protection.ExitCloses | src/sentinel/protect/supervisor.py:50-63 | filled whole, it takes exactly its quantity off the position |
| Protection.ProtectiveExitSupervisor.EnsureProtection | src/sentinel/protect/supervisor.py:43-78 | a pass adds one exit to each uncovered position, for exactly what is uncovered, on the closing side and as the broker answered, adds nothing else, and changes nothing where none is uncovered |
| Protection.ProtectiveExitSupervisor.LoadPositions | src/sentinel/ledger/store.py:619-624 | all nonzero positions and their quantities |
| Protection.PassCoversExactly | src/sentinel/protect/supervisor.py:43-78 | after a pass without refusals claims that fitted equal the position, and nothing is left for a second pass to place |
| RustGuards.CommittedSaturates | rust/crates/sentinel-ledger/src/book.rs:402-408 | the saturating fold is the exact sum of live exits, pinned at the largest int64 |
| RustGuards.ExitSendsWhatIsFree | rust/crates/sentinel-engine/src/guards.rs:203-235 | an exit sends the most that closes and is unclaimed, and is refused exactly when that is nothing |
| RustGuards.EntryAllowedExactly | rust/crates/sentinel-engine/src/guards.rs:165-201 | when an entry is allowed, both ways; below the largest int64 the cap bounds the exact position |
| RustGuards.CommandsStackSafely | rust/crates/sentinel-engine/src/guards.rs:150-235 | however many commands arrive on one position, exits claim no more than is held, at most one entry is live, and no order sent is in doubt |
| RustGuards.ExitGuardsAgreeWhenClosing | rust/crates/sentinel-engine/src/guards.rs:203-235 | on the closing side both guards send the same quantity; on the opening side the engine refuses what the Python guard sends |
| RustGuards.EntryGuardsDifferInShrinking | rust/crates/sentinel-engine/src/guards.rs:190-199 | the engine allows exactly the entries the Python guard leaves whole |
| Fixed.TruncDivIsTowardZero | go/internal/fixed/fixed.go:215-222 | truncation is the one quotient not beyond the exact value and within a unit of it |
| Fixed.Abs64 | go/internal/fixed/fixed.go:256-263 | the magnitude of every int64, the most negative included |
| Fixed.MulDiv | go/internal/fixed/fixed.go:223-252 | the exact product over d, truncated toward zero and clamped, for every three int64 values; 0 over 0 |
| DecimalText.Parse | go/internal/fixed/fixed.go:67-127 | accepts exactly the plain decimals whose whole part fits and whose digits beyond the eighth are zero, with the right error for each of the others, and returns the exact value wrapped to int64 |
| DecimalText.ParseFraction | go/internal/fixed/fixed.go:96-117 | the digits after the point, eight of them weighed, the rest required zero |
| DecimalText.ParseWhole | go/internal/fixed/fixed.go:83-94 | the digits before the point, refused at the first digit that takes them out of range |
| DecimalText.ParseIsExact | go/internal/fixed/fixed.go:62-127 | an accepted text denotes its digits over a power of ten, and that is what is returned if and only if it fits int64 |
| DecimalText.OverflowIsSilent | go/internal/fixed/fixed.go:109-126 | an accepted amount just above the largest reads back negative |
| DecimalText.String | go/internal/fixed/fixed.go:142-169 | writes every int64, the most negative included, so that Parse returns it and its exact value is the one written, without padding on either side |
| DecimalText.ShortestExactly | go/internal/fixed/fixed.go:138-169 | no accepted text of the same amount is shorter than the one written if and only if the amount is nothing or at least one |
| DecimalText.LeadingZeroIsIdle | go/internal/fixed/fixed.go:62-127 | every other amount can be written one character shorter, from the point on |
| DecimalText.TrimZeros | go/internal/fixed/fixed.go:162-166 | drops trailing zeros and nothing of value |
| Positions.Position.ApplyFill | go/internal/book/book.go:347-388 | for every int64 position and fill the new position is the fill on wrapping sums and saturating products, and the exact fill where that fits |
| Positions.BookedIsExact | go/internal/book/book.go:347-388 | where the exact result fits int64 nothing on the way wraps or saturates |
| Positions.BookedQty | go/internal/book/book.go:347-388 | whatever overflows, the quantity moves by the signed size of the fill as int64 adds if and only if the held quantity is not the most negative one bought into and the size is not a negative one against the position |
| Positions.Position.Reduce | go/internal/book/book.go:359-387 | the same for closing in part, in full and through zero, on all of int64 |
| Positions.Position.SliceOfBasis | go/internal/book/book.go:393-405 | the closed share of the basis, all of it with the last piece |
| Positions.Position.Unrealized | go/internal/book/book.go:85-90 | value at the mark less basis, nothing when flat |
| Positions.FillLaw | go/internal/book/book.go:347-388 | one fill moves quantity by its size and basis less realised by exactly its notional, less a unit when a flip carries, and keeps basis on the side of the quantity |
| Positions.FlipIsExact | go/internal/book/book.go:382-387 | a flip is priced exactly if and only if the remainders of its two pieces do not make up a unit |
| Positions.RunLaws | go/internal/book/book.go:347-388 | after any fills the quantity is their signed sum, basis and quantity share a sign, flat means no basis, and basis less realised is exactly what was spent less what flips carried |
| Positions.PnlIsConserved | go/internal/book/book.go:85-90 | realised plus unrealised at any mark is the mark's value less what was spent plus what flips carried, exactly; that is nothing without flips and within a unit for each flip that carries |
| Positions.FlipLosesAUnit | go/internal/book/book.go:382-387 | a flip can lose that unit |
| AverageCost.ComputeBasis | src/sentinel/marks/pnl.py:46-78 | one pass over the rows gives every instrument the walk over its own rows |
| AverageCost.Account | src/sentinel/marks/pnl.py:53-77 | one row re-averages, realises or flips as the walk says |
| AverageCost.WalkReads | src/sentinel/marks/pnl.py:58-77 | the walk in decimals is an exact accounting in raw units |
| AverageCost.BasisStrays | go/internal/book/book.go:347-405 | each fill takes the book's basis at most one unit further from the exact one |
| AverageCost.ExactIsConserved | src/sentinel/marks/pnl.py:58-77 | without rounding, basis less realised is exactly what was spent |
| AverageCost.BookTracksAverageCost | go/internal/book/book.go:347-405 | after any n fills the quantity is exact, the basis within n raw units of the average-cost basis and the realised P&L within 3n |
| Books.Book.Apply | go/internal/book/book.go:160-183 | one record folds orders, executions and positions as specified, whatever overflows |
| Books.Book.ApplyEvent | go/internal/book/book.go:215-282 | known orders only, applied fills once, over-matches clamped on the order and not on the position |
| Books.Book.MovePosition | go/internal/book/book.go:332-388 | one position moves, opened flat if there was none, for every int64 fill; no other changes |
| Adversary.PositionsAreSums | go/cmd/adversary/main.go:66-122 | for every journal, the book's positions are the sums of the raw fills on every instrument and at every record if and only if no execution, unless of nothing, is reported before its order's intent and taken after it, and every quantity taken is one the book counts as int64 adds |
| Adversary.IntentsFirstAgree | go/cmd/adversary/main.go:66-122 | in every journal whose intents come first only the quantities decide |
| Adversary.AgreesOn | go/cmd/adversary/main.go:82-100 | from agreement, one more record keeps it if and only if it reads right |
| Adversary.LateIntentDisagrees | go/cmd/adversary/main.go:88-100 | an execution reported before its intent and again after it makes the two disagree |
| Adversary.Check | go/cmd/adversary/main.go:51-132 | for every journal reports a position exactly where book and sum differ, and an order exactly where its raw fills pass its quantity |
| Adversary.OrdersAreCounted | go/internal/book/book.go:215-282 | in every journal whose intents come first, the book's orders are in the state last recorded of them, filled to the clamp of the raw fills since the last resolution, with the rest remaining |
| Adversary.HoldingsAreRuns | go/internal/book/book.go:215-282 | every position in the book is a run of the fills booked on its instrument, so the laws of runs are laws of the book |
| Bars.Series.Observe | go/internal/bars/bars.go:44-85 | a mark extends the newest candle, starts a later one or is ignored as older |
| Bars.Series.Seed | go/internal/bars/bars.go:93-106 | history goes only into an empty series, its newest part |
| Bars.Aggregator.Observe | go/internal/strategy/bars.go:32-50 | returns the close of the bar a mark ended |
| Bars.ObserveKeepsShape | go/internal/bars/bars.go:44-85 | marks in any order keep candles strictly ascending, bounded in number, and open and close within low and high |
| Bars.SeedKeepsShape | go/internal/bars/bars.go:93-106 | so does seeding with such candles, and later marks stay after them |
| Bars.StrategySeesTheChart | go/internal/strategy/bars.go:32-50 | on the same marks in time order the strategy's closes and its open one end in exactly the chart's closes |
| Bars.NewestShows | go/internal/bars/bars.go:44-85 | on marks in time order the newest candle is that of the last mark's bucket, opened at the first price marked in it, closed at the last, as high as the highest and as low as the lowest |
| Bars.OlderStand | go/internal/bars/bars.go:44-85 | older candles never change and are dropped from the far end only |
| Crc32c.BuildTable | rust/crates/sentinel-journal/src/crc32c.rs:22-44 | every entry is eight steps of bitwise division of its index |
| Crc32c.EightBits | rust/crates/sentinel-journal/src/crc32c.rs:27-39 | the inner loop computes the entry |
| Crc32c.Update | rust/crates/sentinel-journal/src/crc32c.rs:58-71 | the table-driven loop feeds every byte into the reflected register |
| Crc32c.Checksum | rust/crates/sentinel-journal/src/crc32c.rs:47-49 | a checksum is an update from nothing |
| Crc32c.LookupIsEightSteps | rust/crates/sentinel-journal/src/crc32c.rs:60-69 | one lookup is eight single-bit steps, the high bytes moving down untouched |
| Crc32c.ChecksumIsDivision | rust/crates/sentinel-journal/src/crc32c.rs:17-71 | for every start value and byte string the update is bit-at-a-time division by the Castagnoli generator as in section 12.1 of RFC 3720 |
| Crc32c.UpdateContinues | rust/crates/sentinel-journal/src/crc32c.rs:51-71 | continuing a checksum over a second slice is checksumming the whole |
| Crc32c.BurstsAreSeen | rust/crates/sentinel-journal/src/crc32c.rs:58-71 | any change within four consecutive bytes of a message of any length changes its checksum |
| JournalFormat.FrameRoundTrip | go/internal/journal/journal.go:149-187 | what the writer frames the reader decodes to the same header |
| JournalFormat.DamageIsRefused | go/internal/journal/journal.go:149-187 | damage within four consecutive bytes of what the checksum covers, header or payload, is always refused |
| JournalDirectory.SequenceNamesOne | go/internal/journal/tailer.go:93-100 | in a gapless log a sequence names one record, so the sequence check on a frame fixes which record it is |
| JournalDirectory.FrameThere | go/internal/journal/tailer.go:150-183 | where a whole frame stands in the bytes of a segment, and how far the next one is |
| Tailing.Tailer.ReadFrameAt | go/internal/journal/tailer.go:150-183 | at a frame boundary, with the writer at work between the reads, returns the whole frame there or nothing, and nothing only if it was not all there |
| Tailing.PayloadBytesAt | go/internal/journal/tailer.go:170-182 | payload bytes that have all arrived belong to the frame whose header was read |
| Tailing.ReadsAcrossACut | go/internal/journal/tailer.go:150-183 | whatever is done to the file between the two reads, a frame that was whole is read as it is, and of a torn one anything since written in its place is refused unless it has the torn one's checksum |
| JournalFormat.SealDecides | go/internal/journal/journal.go:149-187 | under a writable frame's header another payload is taken for its own if and only if it has the same checksum |
| JournalFormat.OnlyFramesDecode | go/internal/journal/journal.go:149-187 | whatever decodes is the header of a writable frame over its payload, but for two reserved bytes nothing looks at |
| Tailing.Tailer.OpenCurrent | go/internal/journal/tailer.go:220-242 | opens the segment at its first frame, or reports a header not yet written |
| Tailing.Tailer.Rescan | go/internal/journal/tailer.go:256-270 | takes the new listing and steps one segment on if one appeared |
| Tailing.Tailer.Next | go/internal/journal/tailer.go:67-122 | the record written under the sequence expected, in an array of its own, or no record, or an error; a whole frame where the reader stands is returned if it has the sequence expected and named in the error if not; a reader in step is given the record it expects if it is anywhere in the log; an error for a heading comes only where one is missing, and being caught up only at the end of the last segment |
| Tailing.Tailer.Drain | go/internal/journal/tailer.go:125-137 | consecutive records from the one expected, earlier payloads still intact at the end, and for a reader in step at least everything that was in the log when it was called |
| Tailing.Tailer.SeekToStart | go/internal/journal/tailer.go:185-218 | the expectation moves only when every segment begins after it, and then to the first frame; where the record wanted is in the log the reader ends in step with it |
| Tailing.Tailer.LastAtOrBelow | go/internal/journal/tailer.go:189-195 | the last segment beginning at or below what is wanted, or the first if none does |
| Tailing.OpenTailer | go/internal/journal/tailer.go:36-51 | delivers from after + 1 unless the log begins later and has a frame, when it starts there silently, both ways; in step wherever after + 1 is in the log |
| Tailing.LateStartArises | go/internal/journal/tailer.go:185-218 | a log that begins at five, as a disk may hold it, on which that happens to a reader from the start |
| Projecting.StepStays | go/cmd/projectord/main.go:99-177 | every step keeps the table a prefix of the log that never shrinks, the cursor within it, and the batch without a gap |
| Projecting.TableIsPrefix | go/cmd/projectord/main.go:99-177 | after any run, with crashes between any two steps and failed inserts and commits, the table is a prefix of the log, each record once, and the cursor is not past it |
| Projecting.RowsStand | go/cmd/projectord/main.go:161-177 | a row once in the table is never changed or removed |
| Projecting.RestartCatchesUp | go/cmd/projectord/main.go:74-177 | from every reachable state a restart, reading to the end and one good flush put the whole log in the table: nothing is ever passed over |
| Projecting.Projector.CommitCursor | go/internal/journal/tailer.go:305-321 | a lower sequence is a no-op, otherwise file and memory move together or not at all |
| Projecting.Projector.Flush | go/cmd/projectord/main.go:161-177 | insert, then commit, as two steps of the system |
| Projecting.Projector.Turn | go/cmd/projectord/main.go:99-155 | one turn of the loop is a run of the system: a record read if there is one, a full batch sent, and a waiting batch sent exactly when it is due and there is nothing to read |
| ReconcileLoops.RunsAreTidy | src/sentinel/runtime/app.py:289-389 | under every interleaving pending is the queue and the key in flight, no key twice, delays between 2 and 60 seconds and retries at most five |
| ReconcileLoops.LeavesOnlyWhenConcluded | src/sentinel/runtime/app.py:330-362 | a key leaves the pending set exactly when its order was found finished or its reconciliation returned |
| ReconcileLoops.CountersAreHistory | src/sentinel/runtime/app.py:341-359 | each timeout since the last conclusion doubles a key's delay to the cap, timeouts never halt, and the sixth other error does |
| ReconcileLoops.DoublingIsBounded | src/sentinel/runtime/app.py:341-349 | the delay is at least 2 and at most 60 seconds, and 60 from the fifth timeout on |
| ReconcileLoops.ReconcileLoop.Iterate | src/sentinel/runtime/app.py:315-362 | one pass of the loop, with triggers arriving while it waits, is a run of the system whose own moves are those of the order's ending, and it halts exactly on divergence or the sixth error |
| ReconcileLoops.ReconcileLoop.Act | src/sentinel/runtime/app.py:334-362 | what each ending of a reconciliation leads to |
| ReconcileLoops.ReconcileLoop.SweepStaleOrders | src/sentinel/runtime/app.py:364-389 | queues each stale key that is not pending, once, and nothing else |

## Left out

- Order ids: fresh random ids in the source, row numbers here; event ids, trace ids and timestamps carry no decision and are dropped.
- SQL, connection pools, the event encoding and the advisory locks: tables are sequences and maps, a transaction is one atomic step, and committed transactions are durable.
- The account-wide single-writer lock service and asynchronous commit: one writer and durable commits are assumed.
- Rebuilding the projections while other writers run: in the protocol a rebuild happens only after a crash.
- Decimal arithmetic to 28 digits: ledger quantities and the average-cost walk are exact reals.
- EntryDiscipline.RunsAreOrderly: an idempotency key names one intent and so one instrument, as placing assumes when it takes a known key for a replay (src/sentinel/oms/writer.py:93-108), and imports draw keys of their own (src/sentinel/ui/server.py:241, src/sentinel/protect/supervisor.py:57, src/sentinel/recon/reconciler.py:302).
- EntryDiscipline.EntriesAreExclusive: takes keys the same way, and counts only entries placed by the engine, because position imports take no lock and are booked as entries.
- Engine.Reconciler.ReconcileOrder: runs without interference; interference between its passes is what the protocol's runs are about.
- Engine.Reconciler.StartupRecovery: takes a log that some history of the ledger wrote, and leaves out the position adoption that follows it, whose writes are the protocol's position imports.
- Exits.ExitsNeverOverreach: takes keys the same way.
- Protection.ProtectiveExitSupervisor.EnsureProtection: runs without interference, so the exit guard does not refuse after the positions are read; in the protocol that refusal is a step of its task.
- Fetching exchange positions and choosing the price of an adopted difference.
- The engine's own book, journal writer and event loop: the guards are given an abstract book, the log an arbitrary writer.
- Tailing.Tailer.ReadFrameAt: between the header read and the payload read of one frame nothing is cut off the file; what a torn tail replaced in exactly that moment can lead to is Tailing.ReadsAcrossACut.
- Tailing.Tailer.OpenCurrent: the magic and version checks of the segment header.
- Projecting.RestartCatchesUp: takes a log that still begins at sequence one.
- Decoding of the rest of the segment header, parsing of segment names, files that disappear, and I/O errors other than short reads.
- Liveness of the tailer beyond what is in the log when it is asked, and of reconciliation: the code promises errors or halts.
- Books.Book.Apply: leaves out marks, balances, decisions and the bounded activity rings.
- Adversary.Check: leaves out the checks on live exits, trace ids and halts, which read the maps it already keeps.
- Projecting.Projector.Turn: the signal that stops the loop, the sleep, and turning a record into a row.
- fixed.Whole, Add, Sub and JSON forms, the remaining and signed quantities of an order, and the position's average entry: one-line computations.
- HTTP, websockets, server-sent events, Supabase, configuration, credentials, metrics, alerts, cards and snapshots.
- Indicators and backtests in floating point.
- Symbol-grid rounding, action planning, trailing stops, product and intent validation and fan-out: easy members.
