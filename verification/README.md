# Verification of the broker and market-data core

This project models the parts of the trading platform that carry protocol, arithmetic or money
invariants, and proves what those parts are for. It has three groups of modules.

**Address codecs.** `Positional`, `Base58`, `Bitwise`, `Bech32`, `ConvertBits` and
`AddressValidators` model the withdrawal address validators: Base58Check, the Bech32 and Bech32m
checksums (BIP-173, "Checksum"; BIP-350, "Bech32m") and the bit regrouping of segwit addresses.
The encoders, which the program does not have, are written as specification functions. SHA-256 is
an arbitrary function from byte strings to byte strings.

**The feed manager.** `SharedConnection` is the protocol around the one provider connection:
adapters register and unregister symbols under a lock, one reader task owns the socket, and a
watchdog resubscribes stale symbols. Every action is the code between two awaits; the lock, the
cancellations and failed sends are explicit. `SharedConnectionSteps` shows that every action keeps
the invariant, `SharedConnectionRuns` draws the conclusions for all interleavings,
`SharedConnectionWire` adds that nothing else is subscribed, and `ConnectionManager` is the class
that carries the fields and is driven by the runs of the protocol. `FeedRefcount` and `FeedTasks` do
the same for the reference counting of feed tasks, `FeedLoop` says when the loop of one such task
ends, and `FeedLives` puts the two together. `CryptoStream` and `CryptoFeed` model the crypto event
stream, `PriceBoard` (with `QuoteRules`) the price maps read and written by several threads,
`DurablePrice` the durable last price, and `History` paged bar history.

Hypotheses of the feed manager's protocols:

- One adapter per symbol at a time, and each adapter is cancelled once. A stopped feed task that
  still has to unregister queues for the lock before its successor can queue to register, and the
  lock is first come, first served; a successor that waits meanwhile counts as one not yet started.
- A consumer unsubscribes once for each subscription that was completed, and not otherwise: cut off
  while joining it was never counted, and cut off while leaving it does not try again.
- Marks set or removed by other threads fall between two actions: not between a test of the marks
  and the stop that follows it (`market_data/feeds.py:1160-1161`), and not between the snapshot of
  a reconciliation pass and the end of its loops (`market_data/feeds.py:1035-1055`).

**Money bookkeeping.** `Adjustments` and `AdjustmentCalls` (reversible economic adjustments),
`Exposure` and `ExposureReport` (exposure aggregation, over the generic `GroupedSums`),
`ForceClose` (closing positions from the dealing desk and the broker counterparty rows),
`AuditDedup` and `AuditTrail` (deduplicated observations and escalations), `IBExpense` (commission
expense by group) and `Withdrawals` (two approvals, submission, rejection with refund). Tables are
maps and sequences, row locks are guards of steps, money is whole cents or exact reals.

Where the program changes state step by step, a class or a loop is proved against a specification
function or predicate, and the properties are lemmas about that specification. Runs are sequences
of enabled actions; `Reaches(st, acts, end)` says that `acts` lead from `st` to `end`.

## Where code and promise part

Some promises hold only under a condition. In each case the code is modelled as it is, the
condition is proved exactly, and a lemma exhibits the failure.

- A symbol whose adapter is cancelled while its own subscription is being sent stays active: the
  registration stands outside the `try`/`finally` that unregisters (`market_data/feeds.py:2575-2581`).
  The connection is torn down after the last adapter left if and only if that never happened to a
  symbol that was not registered again (`TornDownIffNothingLeaked`, `LeakExactly`, `LeakHappens`).
- A cancellation that reaches the reader while it joins its watchdog is swallowed
  (`market_data/feeds.py:2815-2819`). The adapter that awaits the reader then keeps the lock for
  ever (`AbsorbedExactly`, `AbsorbedBlocksForever`, `AbsorbHappens`).
- The watchdog may resubscribe a symbol that was unregistered after it listed the stale symbols
  (`market_data/feeds.py:2637-2687`), and an unsubscription whose send fails is forgotten. Such
  strays stay subscribed at the provider; without them the connection carries exactly the active
  symbols (`SubscribedAreActive`, `StrayExactly`, `StrayHappens`).
- A feed task can outlive all its references: when a position is unmarked in the same process
  (`market_data/feeds.py:986-1003`) and the symbol has no subscriber, neither `unsubscribe` nor the
  reconciliation pass looks at the task again; so it can if only lost consumers are left
  (`IdleExactlyIfStrayed`, `PassFollowsDatabase`, `StrayTaskHappens`).
- Deleting trades from a crypto event stream changes nothing on the quote side exactly as long as
  no trade is fatal to the connection. A trade is fatal if its pair cannot be looked up, since the
  lookup stands outside the inner `try` (`market_data/feeds.py:3190-3191`), if a field overflows in
  conversion, since `OverflowError` is not among the exceptions caught
  (`market_data/feeds.py:3194-3199`), or if an accepted trade cannot be sent
  (`market_data/feeds.py:3213`). Every such trade costs ticks in some continuation, no other trade
  does in any (`TradeIsInvisible`, `FatalTradeLosesTick`, `TradeCostsTicksIffFatal`).
- A quote is remembered as the last one before it is sent (`market_data/feeds.py:3174-3175`). If
  the send fails it is never ticked; a symbol's ticks are all its accepted quotes, repeats removed,
  exactly if no send of it failed (`TicksAreDeduped`, `TicksAreAllIffSent`,
  `FailedSendLosesTick`).
- A feed task runs until it is cancelled, but the loop of a symbol that is not in the instrument
  registry dies at its first REST price: the lookup raises outside every `try`
  (`market_data/feeds.py:1826`, `3261`, `3340`). Its subscribers are then counted without a running
  task until somebody else joins or reconciliation adopts the symbol. A symbol has a running task
  whenever it has a subscriber exactly if it is registered (`DiesIffUnregistered`,
  `SubscribersHaveLiveTask`, `AlwaysLiveIffRegistered`, `DeadStaysDead`, `DeadTaskHappens`).
- A consumer cut off while it leaves its group (`market_data/feeds.py:1131-1134`) stays counted
  for ever. The count of a symbol is the number of its subscribers exactly if none was lost so
  (`SubscribersAreServed`, `LostIsCountedForever`, `LostConsumerHappens`).
- A stopped symbol's last valid quote can come back, exactly if a reader stood between its snapshot
  and its store when the symbol was stopped (`StopClearsIffNoReaderPending`).
- The newest durable price can be lost, exactly if the table starts empty and another process races
  it between update and insert (`NewestLostIffFirstRowRaced`).
- The exposure's net quantity agrees with its breakdowns exactly if the positions whose side reads
  `BUY` only in upper case weigh nothing: one place compares with `upper()`, the other without
  (`TotalsAgreeIffNoLooseBuys`, `LooseBuyDisagrees`); with positive quantities, exactly if every
  BUY is written in capitals (`TotalsAgreeIffBuysInCapitals`).
- A rule type's expense row equals the summary asked for that rule type exactly if the adjustments
  of all other rule types sum to zero, since the summary does not filter them
  (`RuleTypeRowIsSummaryIff`, `RuleTypeRowDiffers`).

## Model

| member | source | states |
|---|---|---|
| Positional.RecodeInverts | simulator/address_validators.py:52-61 | changing the base of a digit string with its leading zeros and back gives the string itself |
| Base58.DecodeLoop | simulator/address_validators.py:52-61 | the decoding loop computes exactly the numeral's shortest bytes behind one zero byte per leading `1`, or fails on a foreign character |
| Base58.ToBytesIsShortest | simulator/address_validators.py:59-61 | the bit-length formula for the byte count yields exactly the base-256 digits of the number, without a leading zero |
| Base58.DecodeEncode | simulator/address_validators.py:52-61 | every non-empty byte string is what its encoding decodes to |
| Base58.EncodeDecode | simulator/address_validators.py:52-61 | every decodable text is the encoding of what it decodes to |
| Base58.CheckEncodeDecode | simulator/address_validators.py:64-77 | whatever passes the check is the one text of its payload |
| Base58.CheckDecodeEncode | simulator/address_validators.py:64-77 | every 21-byte payload with its checksum is accepted and read back, for any hash |
| Base58.CheckDecodeInjective | simulator/address_validators.py:64-77 | two accepted addresses with one payload are the same text |
| Base58.VersionFixesFirstCharacter | simulator/address_validators.py:80-104 | 25 bytes with version 0x41 are written as 34 characters starting with T, 0x05 starts with 3, 0x00 with 1 |
| AddressValidators.Trc20PrefixIsRedundant | simulator/address_validators.py:80-91 | the test for a leading T rejects nothing that the version test accepts, and accepted addresses have 34 characters |
| Bech32.PolymodLoop | simulator/address_validators.py:116-124 | the checksum loop is the fold of one state step, started at 1 |
| Bech32.StepBound | simulator/address_validators.py:116-124 | the state stays below 2^30 |
| Bech32.StepLinear | simulator/address_validators.py:116-124 | a step of an exclusive-or is the exclusive-or of the steps |
| Bech32.StepKernel | simulator/address_validators.py:116-124 | only the zero state steps to zero, so a step loses nothing |
| Bech32.PolymodLinear | simulator/address_validators.py:116-124 | the checksums of two symbol strings of equal length differ by the checksum of their difference |
| Bech32.WindowKernel | simulator/address_validators.py:116-124 | at most six symbols started from zero reach zero only if all are zero |
| Bech32.WindowErrorDetected | simulator/address_validators.py:116-137 | two strings of any equal length that differ only within six consecutive symbols never have the same checksum |
| Bech32.ChecksumUnique | simulator/address_validators.py:131-137 | six symbols complete a string to a given target exactly if they are its checksum |
| AddressValidators.ChecksumDetectsWindow | simulator/address_validators.py:127-137 | two data parts under one prefix that differ only within six symbols never both verify as the same specification |
| AddressValidators.DecodedIsEncoding | simulator/address_validators.py:140-157 | a text decodes only if it is, in one case, the encoding of its parts |
| AddressValidators.EncodingDecodes | simulator/address_validators.py:140-157 | every encoding decodes, in either case, to what was encoded |
| ConvertBits.ConvertBitsLoop | simulator/address_validators.py:160-179 | the accumulator loops compute exactly the regrouping of the bit stream, failing on out-of-range words and bad padding |
| ConvertBits.Absorb | simulator/address_validators.py:170-171 | shifting in a word and masking the accumulator keeps every unread bit |
| ConvertBits.Drain | simulator/address_validators.py:172-174 | the inner loop takes off exactly the complete words and leaves the rest |
| ConvertBits.PadThenUnpad | simulator/address_validators.py:160-179 | padded regrouping into narrower words always succeeds and unpadded regrouping undoes it |
| ConvertBits.UnpadFacts | simulator/address_validators.py:175-179 | unpadded regrouping succeeds exactly if all words are in range and fewer bits than a word are left over, all zero |
| ConvertBits.UnpadThenPad | simulator/address_validators.py:160-179 | where unpadded regrouping succeeds, padded regrouping gives back the words |
| AddressValidators.WitnessExact | simulator/address_validators.py:182-205 | decoded parts carry a witness exactly if it is standard and the parts are its own |
| AddressValidators.SegwitCanonical | simulator/address_validators.py:182-205 | whatever is accepted is, in one case, the one text of a standard witness |
| AddressValidators.SegwitComplete | simulator/address_validators.py:182-205 | the text of every standard witness is accepted with the right label |
| AddressValidators.SegwitInjective | simulator/address_validators.py:116-205 | accepted addresses of one version and program are the same text up to case |
| AddressValidators.BtcDispatchIsComplete | simulator/address_validators.py:208-220 | the dispatch on first characters hides no acceptable address, and no testnet address is accepted |
| ConnectionManager.Manager.Register | market_data/feeds.py:2455-2484 | adds the symbol and decides, on task, socket, auth and subscription, between starting the service, subscribing and waiting |
| ConnectionManager.Manager.Unregister | market_data/feeds.py:2510-2518 | removes the symbol from both sets and says whether an unsubscription is due |
| ConnectionManager.Manager.TearDown | market_data/feeds.py:2536-2541 | leaves no task, no socket, no auth and no subscription |
| ConnectionManager.Manager.Authenticate | market_data/feeds.py:2766-2771 | the batch to subscribe is the active set at that moment |
| ConnectionManager.Manager.Attach | market_data/feeds.py:2741-2744 | the new socket is on record and not authenticated |
| ConnectionManager.Manager.Clear | market_data/feeds.py:2828-2846 | the end of an attempt leaves the active symbols and the task, and no connection |
| ConnectionManager.Manager.Drive | market_data/feeds.py:2441-2856 | along any run the fields are those of the state reached; lock free and nothing active leaves every one at its start |
| SharedConnection.NobodyInside | market_data/feeds.py:2455-2542 | with the lock free no adapter, reader or watchdog stands in a locked section |
| SharedConnectionSteps.StepKeepsInv | market_data/feeds.py:2441-2856 | every action of adapters, reader and watchdog keeps the whole invariant |
| SharedConnectionRuns.AtMostOneReader | market_data/feeds.py:2455-2463 | in every reachable state at most one reader and one watchdog run, those of the task on record |
| SharedConnectionRuns.SectionsExclude | market_data/feeds.py:2455-2542 | two parties never stand in locked sections at once |
| SharedConnectionRuns.IdleMeansTornDown | market_data/feeds.py:2528-2542 | lock free and nothing active means no task, no socket, not authenticated, nothing subscribed, all readers over |
| SharedConnectionRuns.ActiveAreSubscribed | market_data/feeds.py:2741-2777 | lock free, authenticated, reading and no failed send means every active symbol is subscribed on that very connection |
| SharedConnectionRuns.TornDownIffNothingLeaked | market_data/feeds.py:2528-2581 | once all adapters have left, the service is down exactly if no symbol was leaked |
| SharedConnectionRuns.LeakExactly | market_data/feeds.py:2464-2484 | a symbol leaks exactly when its adapter is cancelled in the middle of subscribing |
| SharedConnectionRuns.LeakLasts | market_data/feeds.py:2575-2581 | a leaked symbol keeps the service up through any run that does not register it again |
| SharedConnectionRuns.LeakHappens | market_data/feeds.py:2575-2581 | a run after which every adapter is gone and the service still runs |
| SharedConnectionRuns.AbsorbedExactly | market_data/feeds.py:2815-2819 | a cancellation is swallowed exactly if it finds the reader joining its watchdog |
| SharedConnectionRuns.AbsorbedBlocksForever | market_data/feeds.py:2528-2536 | after a swallowed cancellation the lock is never released and the reader never ends |
| SharedConnectionRuns.AbsorbHappens | market_data/feeds.py:2815-2819 | a run in which this happens |
| SharedConnectionWire.StepKeepsTidy | market_data/feeds.py:2441-2856 | every action keeps that what is subscribed on the connection is on the books, being given up, or a stray |
| SharedConnectionWire.SubscribedAreActive | market_data/feeds.py:2464-2526 | lock free, authenticated, reading and no failed send means the connection carries the active symbols and, strays aside, nothing else |
| SharedConnectionWire.StrayExactly | market_data/feeds.py:2679-2687 | a symbol strays exactly when the watchdog resubscribes what is off the books or an unsubscription fails |
| SharedConnectionWire.StrayHappens | market_data/feeds.py:2637-2687 | a run after which an unregistered symbol is subscribed again |
| FeedRefcount.StepKeepsInv | market_data/feeds.py:1126-1217 | every action of consumers, reconciliation, other threads and tasks keeps the invariant |
| FeedRefcount.SubscribersAreServed | market_data/feeds.py:1126-1173 | after any run the count is the number of subscribers and of those lost while leaving, so the former exactly if none was lost; while there is a subscriber, a task created for the symbol that no path stopped is on record, and one runs exactly if that task did not die by itself |
| FeedRefcount.LiveUnlessDied | market_data/feeds.py:1126-1173 | in every run in which no task of the symbol dies uncancelled, a symbol with a subscriber has a running task, the one on record |
| FeedRefcount.RevivedExactly | market_data/feeds.py:1165-1173 | a symbol without a running task gets one exactly when somebody joins or reconciliation adopts it |
| FeedRefcount.DeadStaysDead | market_data/feeds.py:1165-1173 | until then no task runs however the run goes on, and the dead one stays on record while there is a subscriber |
| FeedRefcount.DeadTaskHappens | market_data/feeds.py:1126-1173 | a run of the protocol with a counted subscriber and no running task, for any symbol |
| FeedLoop.StepEndsIffHit | market_data/feeds.py:1819-2132 | no step of a registered symbol's loop ends it but a cancellation, and every cancellation does |
| FeedLoop.DiesIffUnregistered | market_data/feeds.py:1819-1844 | a feed loop that has begun dies uncancelled exactly if its symbol is not registered, and else ends exactly if the cancellation reaches it |
| FeedLives.SubscribersHaveLiveTask | market_data/feeds.py:1126-1173 | after any run every registered symbol with a subscriber has a running task created for it that no path has stopped |
| FeedLives.AlwaysLiveIffRegistered | market_data/feeds.py:1126-1173 | the symbols of which this holds after every run are exactly the registered ones |
| FeedRefcount.LostIsCountedForever | market_data/feeds.py:1131-1134 | after a consumer was cut off while leaving, its symbol keeps a positive count and a task in every continuation |
| FeedRefcount.LostConsumerHappens | market_data/feeds.py:1131-1134 | a run with a count of one, a live task and nobody subscribed |
| FeedRefcount.NoOrphanTask | market_data/feeds.py:1165-1205 | a running task is the one on record for its symbol, so no two run for one symbol |
| FeedRefcount.StoppedOnlyWithoutSubscribers | market_data/feeds.py:1131-1162 | an action stops a task only if its symbol has no subscriber and no position mark |
| FeedRefcount.IdleExactlyIfStrayed | market_data/feeds.py:986-1055 | a task nobody is about to check is kept without subscriber or position exactly if the last reference went without a look at the task, or only lost consumers are left |
| FeedRefcount.AdoptingKeepsInv | market_data/feeds.py:1043-1047 | the adopting half of a reconciliation pass is a run of the protocol |
| FeedRefcount.AbandoningKeepsInv | market_data/feeds.py:1048-1055 | so is the abandoning half |
| FeedRefcount.PassFollowsDatabase | market_data/feeds.py:1034-1055 | after a pass exactly the database's symbols are marked, new ones have tasks, released ones without subscribers have none, and an unmarked idle task goes unnoticed |
| FeedRefcount.StrayTaskHappens | market_data/feeds.py:986-1055 | a run that leaves such a task |
| FeedTasks.FeedManager.Subscribe | market_data/feeds.py:1126-1129 | counts the subscriber and makes sure a task runs |
| FeedTasks.FeedManager.Unsubscribe | market_data/feeds.py:1131-1142 | lowers the count, not below zero, and asks the database exactly if nothing refers to the symbol |
| FeedTasks.FeedManager.Recheck | market_data/feeds.py:1159-1161 | stops the task exactly if still nothing refers to the symbol |
| FeedTasks.FeedManager.Stop | market_data/feeds.py:1201-1217 | takes task and count off record and cancels a task that has not ended |
| FeedTasks.FeedManager.Reconcile | market_data/feeds.py:1034-1055 | the two loops adopt and abandon the given symbols in turn |
| CryptoFeed.Reader.AcceptBtcMarketEvent | market_data/feeds.py:3042-3060 | everything but BTC passes; BTC passes if from the venue and not older than its kind's watermark, which it moves |
| CryptoFeed.Reader.HandleQuote | market_data/feeds.py:3129-3176 | a quote moves the price state if accepted and is broadcast unless it repeats the last one; a pair that cannot be looked up, an overflow or a failed send ends the connection |
| CryptoFeed.Reader.HandleTrade | market_data/feeds.py:3177-3214 | an accepted trade is handed on and moves its watermark; the same failures end the connection |
| CryptoFeed.Reader.ReadAll | market_data/feeds.py:3105-3214 | reading a list of inputs is the run of the specification over it |
| CryptoStream.TradeIsInvisible | market_data/feeds.py:3177-3214 | a trade leaves quotes, prices, ticks and connection untouched exactly if it is not fatal: no pair that cannot be looked up, no overflow in conversion, no accepted trade that cannot be sent |
| CryptoStream.FatalTradeLosesTick | market_data/feeds.py:3190-3213 | in every state, after a fatal trade a quote is lost that is ticked without it |
| CryptoStream.TradeCostsTicksIffFatal | market_data/feeds.py:3177-3214 | in every state, a trade costs ticks in some continuation exactly if it is fatal |
| CryptoStream.DeletingTrades | market_data/feeds.py:3129-3214 | deleting all trades from any input without a fatal one leaves price state, dedup state, connection and ticks unchanged |
| CryptoStream.TicksAreDeduped | market_data/feeds.py:3171-3176 | between two resets a symbol's ticks, and the at most one quote whose send failed, are its accepted quotes with consecutive repeats removed |
| CryptoStream.TicksAreAllIffSent | market_data/feeds.py:3174-3175 | nothing is missing from those ticks exactly if no send of the symbol failed |
| CryptoStream.FailedSendLosesTick | market_data/feeds.py:3174-3175 | wherever a symbol is active, a fresh quote whose send fails is remembered as the last and not ticked |
| CryptoStream.DedupIsChanges | market_data/feeds.py:3171-3176 | what is broadcast are the quotes at which something changes |
| CryptoStream.ResetForgets | market_data/feeds.py:3084-3097 | after a new connection or an unregistration the next accepted quote is broadcast |
| CryptoStream.LastStayActive | market_data/feeds.py:3084-3097 | only active symbols have a last quote, so a new connection starts with none |
| CryptoStream.PriceIsLastAccepted | market_data/feeds.py:1740-1747 | a symbol's price is its last accepted quote, repeated or not, with bid <= mid <= ask |
| CryptoStream.MarkIsMaximum | market_data/feeds.py:3056-3059 | a kind's watermark is the greatest stamp of all its candidates, across reconnects |
| CryptoStream.BtcAcceptedIffNewest | market_data/feeds.py:3042-3060 | after any history a BTC event is accepted exactly if it is a candidate and no earlier one of its kind was newer |
| QuoteRules.ValidMid | market_data/feeds.py:505-548 | the mid of a valid quote lies between bid and ask and within a factor of ten of the base price |
| PriceBoard.QuoteIsLatestWrite | market_data/feeds.py:895-934 | a validated quote exists exactly if the symbol's latest unstopped write is young and valid, and then is that one write in all parts |
| PriceBoard.LastValidWasWritten | market_data/feeds.py:925-934 | the last valid quote was once a single valid write |
| PriceBoard.StepKeepsCoherent | market_data/feeds.py:1206-1216 | updates, resyncs, stops and reads keep the four maps together |
| PriceBoard.StopClearsIffNoReaderPending | market_data/feeds.py:1206-1216 | a stopped symbol's last valid quote can come back exactly if a reader was between snapshot and store |
| PriceBoard.PriceStore.UpdatePriceState | market_data/feeds.py:1740-1747 | one write sets bid, ask, mid, time and source |
| PriceBoard.PriceStore.ResyncPrice | market_data/feeds.py:3254-3283 | a REST price is quoted with the usual spread, a failure seeds the mid only |
| PriceBoard.PriceStore.GetValidatedQuote | market_data/feeds.py:914-934 | returns and stores the validated snapshot, or neither |
| PriceBoard.PriceStore.Forget | market_data/feeds.py:1206-1216 | a stopped symbol is off all six maps at once |
| DurablePrice.StoredIsNewest | market_data/feeds.py:639-653 | whatever the order of completion, the row is at least as new as every accepted write and is one of them |
| DurablePrice.NeverOlder | market_data/feeds.py:639-653 | the stored time never decreases on the way |
| DurablePrice.AnyOrderConverges | market_data/feeds.py:639-653 | writes of distinct times end in the same row in any order, whatever is stored before |
| DurablePrice.StepKeepsInv | market_data/feeds.py:639-653 | interleaved updates and inserts of several processes never store something older |
| DurablePrice.NewestStoredUnlessRaced | market_data/feeds.py:639-653 | a finished newest write is what is stored, unless it saw an empty table first and a row when inserting |
| DurablePrice.NewestLostIffFirstRowRaced | market_data/feeds.py:639-653 | some interleaving loses the newest write exactly if the table starts empty and there is another writer |
| DurablePrice.PriceTable.WriteDurablePrice | market_data/feeds.py:628-653 | one transaction keeps the newer of row and accepted write, and touches no other symbol |
| History.FinalizeBars | market_data/feeds.py:239-257 | the loop, trim and sort compute the final shape |
| History.NewestBars | market_data/feeds.py:239-257 | bars that arrive newest first end as exactly the newest `limit` distinct ones, strictly rising, each the first of its time |
| History.FetchFirstPage | market_data/feeds.py:1374-1417 | one request; a cursor exactly if the page is short and there is a next one |
| History.FetchRemaining | market_data/feeds.py:1443-1483 | the loop reads on until enough, the end, a failure or 20 pages |
| History.FetchHistory | market_data/feeds.py:1533-1536 | first page and rest together are one uninterrupted read |
| History.SplitIsWhole | market_data/feeds.py:1533-1536 | the same, for any provider and limit |
| History.FirstPaintIsSuffix | market_data/feeds.py:1406-1417 | with a cursor, what was shown first is the end of the final result |
| Adjustments.StandingAfter | simulator/broker_economic_adjustment.py:131-168 | appending a reversal takes its target, and only that, out of the standing originals |
| Adjustments.InsertKeepsInv | simulator/broker_economic_adjustment.py:176-203 | inserting a checked request keeps the tables consistent |
| Adjustments.InsertMovesTotals | simulator/broker_economic_adjustment.py:176-203 | and keeps the ledger total equal to the standing originals |
| AdjustmentCalls.StepKeepsSafe | simulator/broker_economic_adjustment.py:120-203 | every step of every concurrent call keeps tables, locks and told outcomes right, and tables only grow |
| AdjustmentCalls.TablesAreConsistent | simulator/broker_economic_adjustment.py:120-203 | after any interleaving: one row per key, equal ledger amounts, no reversal of a reversal, none twice, exact negatives, and the ledger totals the originals not reversed |
| AdjustmentCalls.OnlyKeysConflict | simulator/broker_economic_adjustment.py:131-168 | the lock makes the UNIQUE target constraint redundant: a conflict is always a rival for the key |
| AdjustmentCalls.RetryFindsWinner | simulator/broker_economic_adjustment.py:121-123 | a call with a used key changes nothing and is handed the row |
| AdjustmentCalls.SameKeySameRow | simulator/broker_economic_adjustment.py:121-123 | two successful calls with one key were handed the same row |
| AdjustmentCalls.KeyRaceHappens | simulator/broker_economic_adjustment.py:88-99 | two calls can both pass the pre-check; then the second insert conflicts |
| AdjustmentCalls.AdjustmentTables.CreateAdjustment | simulator/broker_economic_adjustment.py:101-203 | a lone call runs all checks in order and keeps the tables consistent |
| GroupedSums.CollectKeepsSum | simulator/broker_exposure.py:423-511 | summing the groups of a dictionary of sums gives the plain sum |
| GroupedSums.GroupIsSumOfItsValues | simulator/broker_exposure.py:423-511 | a group holds the sum of the values with its key |
| Exposure.ResolveSymbolPrices | simulator/broker_exposure.py:287-312 | the two loops resolve every symbol to live, frozen, stale or unavailable |
| Exposure.LongAndShort | simulator/broker_exposure.py:444-455 | long and short make up gross and net, but for loose BUYs |
| Exposure.TotalsAreSumsOfBreakdowns | simulator/broker_exposure.py:423-554 | every total is the sum over accounts and, margin aside, over symbols, net quantity up to twice the loose BUYs |
| Exposure.TotalsAgreeIffNoLooseBuys | simulator/broker_exposure.py:154-157 | totals and breakdowns agree in every field exactly if loose BUYs weigh nothing |
| Exposure.TotalsAgreeIffBuysInCapitals | simulator/broker_exposure.py:154-157 | they agree if every BUY is in capitals, and with positive quantities only then |
| Exposure.LooseBuyDisagrees | simulator/broker_exposure.py:154-157 | one position on side `buy` makes total and breakdown differ |
| Exposure.ConcentrationsAddTo100 | simulator/broker_exposure.py:514-520 | with positive gross notional the concentrations sum to 100 |
| Exposure.ExclusionSplits | simulator/broker_exposure.py:401-403 | totals without some positions and of just those add up to the whole |
| ExposureReport.CalculateBrokerExposure | simulator/broker_exposure.py:329-568 | an unknown risk scope is refused; otherwise the report is the specification's over the filtered positions |
| ExposureReport.StatesPartition | simulator/broker_exposure.py:469-487 | the four pricing states partition the symbols, and live and frozen ones are the priced |
| ExposureReport.SortedFalls | simulator/broker_exposure.py:524-528 | the top symbols are all symbols, by falling gross notional |
| ExposureReport.AggregateGroups | simulator/broker_exposure.py:423-511 | the pass builds totals and both breakdowns |
| ForceClose.ReplayAddsNothing | simulator/broker_ledger.py:102-149 | repeating the counterparty writer adds no row and no audit event, whatever it is called with and whatever can be recorded |
| ForceClose.ForceCloseIsByStaff | simulator/broker_audit.py:577-582 | a reason yields staff exactly if it is the dealing desk's, and the administrative type exactly if it is that in any case |
| ForceClose.TwoEventsEach | simulator/broker_audit.py:641-654 | if every audit write succeeds there are exactly two events for each closed position, in order |
| ForceClose.ClosedKeepsReconciled | simulator/broker_ledger.py:66-84 | each newly closed trade has exactly one counterparty row with minus its PnL, older trades keep or lack theirs, and the whole book is reconciled after exactly if it was before |
| ForceClose.ClosedExtends | simulator/admin.py:791-1000 | what is recorded for the positions closed so far stays, and the next one is recorded in full |
| ForceClose.OnlyMatchingClosed | simulator/admin.py:785-788 | exactly the matching positions are gone |
| ForceClose.BrokerMirrorsBalance | simulator/admin.py:791-1005 | the new broker rows sum to minus the change of balance, which the last ledger entry shows |
| ForceClose.DealingDesk.CreateCounterpartyEntry | simulator/broker_ledger.py:58-149 | one row for a trade without a row, with its event if that can be recorded, else nothing |
| ForceClose.DealingDesk.CloseList | simulator/admin.py:791-1000 | every position yields one trade, one entry with the prefix-sum balance, one broker row and those of its two events that can be recorded, whatever trades lack a row before |
| ForceClose.DealingDesk.CloseMatching | simulator/admin.py:752-1005 | the account ends with its balance and equity moved by the total PnL |
| AuditDedup.FirstObserved | simulator/broker_audit.py:1383-1391 | the earliest observation of a key, or none |
| AuditDedup.StepKeepsInv | simulator/broker_audit.py:938-966 | every step of concurrent callers keeps lock, order, spacing and cover |
| AuditDedup.RecordedApart | simulator/broker_audit.py:938-966 | two events of one kind and key lie more than the window apart, and nothing unmapped is recorded |
| AuditDedup.ReportedIsOnRecord | simulator/broker_audit.py:1113-1137 | a finished call leaves what it reported on record within its window |
| AuditDedup.EscalationsAreDue | simulator/broker_audit.py:1383-1418 | every escalation is preceded by an observation of the same request at least the threshold earlier |
| AuditTrail.UninterruptedCall | simulator/broker_audit.py:938-966 | a call that nothing interrupts is exactly one check-then-record |
| AuditTrail.SecondRunIsDeduped | simulator/broker_audit.py:943-950 | recording the same thing again within the window adds nothing |
| AuditTrail.IgnoredExactly | simulator/broker_audit.py:1031-1037 | nothing is recorded, whatever the history, exactly for alerts below high severity and for case C and what is no case |
| AuditTrail.CandidatesAre | simulator/broker_audit.py:1371-1378 | candidates for escalation are exactly the items of a recorded case |
| AuditTrail.Trail.RecordActive | simulator/broker_audit.py:969-981 | the batch loop records each item in turn and counts the new rows |
| AuditTrail.Trail.Escalate | simulator/broker_audit.py:1371-1418 | the escalation loop judges candidates against the history before it and counts the new rows |
| IBExpense.GroupingKeepsTotals | simulator/broker_economics_summary.py:303-388 | whatever the grouping, the rows sum to the ungrouped summary in every column |
| IBExpense.RowIsItsMembers | simulator/broker_economics_summary.py:303-388 | a row sums exactly the obligations and adjustments of its key |
| IBExpense.ReferralRowIsSummary | simulator/broker_economics_summary.py:221-262 | a referral's row is the summary asked for that referral |
| IBExpense.RuleTypeRowIsSummaryIff | simulator/broker_economics_summary.py:242-251 | a rule type's row is the summary asked for it exactly if other rule types' adjustments cancel out |
| IBExpense.RuleTypeRowDiffers | simulator/broker_economics_summary.py:242-251 | one executed adjustment of another rule type makes row and summary differ |
| IBExpense.Accumulate | simulator/broker_economics_summary.py:303-310 | an obligation goes into the column of its status, in its row |
| IBExpense.Breakdown | simulator/broker_economics_summary.py:265-300 | the returned rows, sorted by key, sum to the summary, net paid included |
| Withdrawals.GateNeedsTwo | simulator/admin.py:1922-1937 | a request that needs two approvals passes exactly if pending and first approved by somebody else, and then two distinct approvers are on record |
| Withdrawals.StepKeepsInv | simulator/admin.py:1903-2271 | every action of every admin keeps locks, approvals, statuses and money right |
| Withdrawals.SubmittedWasApprovedTwice | simulator/admin.py:1903-1937 | nothing that needs two approvals is past the gate or submitted without two distinct approvers |
| Withdrawals.RejectedIsRefundedOnce | simulator/admin.py:2233-2271 | a rejected request was refunded exactly once, by its amount, and never submitted |
| Withdrawals.MoneyIsConserved | simulator/admin.py:2238-2271 | a request's amount is out of its wallet exactly while not refunded, and balances follow the ledger |
| Withdrawals.NothingIsUndone | simulator/admin.py:1903-2271 | recorded approvers, rejections and submissions stay |
| Withdrawals.WithdrawalDesk.ApplySecondApproval | simulator/admin.py:1922-1937 | the gate's verdict and the recorded second approver |
| Withdrawals.WithdrawalDesk.FirstApproveAll | simulator/admin.py:1955-1971 | exactly the selected pending requests that need two and have none get their first approver |
| Withdrawals.WithdrawalDesk.Reject | simulator/admin.py:2233-2271 | status and refund change together or not at all |

## Left out

- Floating-point and decimal rounding, NaN amounts and negative zero: prices and exposure use exact reals, ledgers whole cents; `round` is the identity.
- SHA-256 itself: any function stands for it.
- The crypto connection's register, unregister, watchdog and reader lifecycle: it mirrors the Forex one; only its dedup, ordering gate and trades are modelled.
- Progress of the shared connection: only safety is proved, since a swallowed cancellation blocks it for good.
- Freshness times, stale-attempt counters, backoff lengths and the connection-watchdog handle of the shared connection: they steer when actions happen, not what is kept.
- SharedConnection.NobodyInside: quote routing inside the Forex read loop is one idle step, because it changes none of the fields of the protocol.
- Network, Redis, Channels, JSON parsing, logging, thread pools, observability hooks and e-mails: events, parameters or sends that may fail.
- Handing a price to the thread pools of the cache and of the durable writer, before it is broadcast, is taken not to fail; what those threads do later does not reach the stream loop.
- Symbol mapping, allow-lists, date ranges and request limits of the feeds; what the provider router, the Binance, Kraken, Finnhub and simulation loops do inside: for the feed loop they return, raise or are cancelled.
- AuditDedup.EscalationsAreDue: all callers read one clock that never goes back, whereas each worker process takes its own timestamps; RecordedApart rests on the same clock.
- History.FetchFirstPage: a body that is not an object, or a number that overflows, escapes the source's handlers; rows here are good or malformed.
- PriceBoard.PriceStore.GetValidatedQuote: run alone the two locked sections follow each other; between threads they are two actions.
- DurablePrice.NewestLostIffFirstRowRaced: only accepted sources take part; a rejected write never reaches the table.
- AdjustmentCalls.AdjustmentTables.CreateAdjustment: references, dates and metadata of the rows, and the type checks on arguments, are not modelled; blank means ASCII white space.
- AuditDedup.RecordedApart: says nothing of events written with a window of zero or less, for which the source neither locks nor checks.
- ExposureReport.CalculateBrokerExposure: the coverage percentage, which is rounded, and the echo of the filters are not part of the report.
- ForceClose.DealingDesk.CloseMatching: the liquidity ledger and its audit event, observational and allowed to fail, are not part of this model; the PnL engine is a parameter; permission checks, the parsing of the price and an account that vanished meanwhile are left out.
- IBExpense.Breakdown: row labels are left out; the symbol of an obligation's source event is given with the obligation.
- Withdrawals.StepKeepsInv: creation of requests and what follows submission (payout confirmed, or failed and refunded) are abstract actions; their modules are not part of this model.
- Address validation by currency or network key: stripping and a lookup in front of the validators modelled here. Case folding is ASCII.
- Dashboards, list views, messages, treasury views and threshold tables: user interface or easy members.
