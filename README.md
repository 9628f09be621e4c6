# Raiden light client: transport helpers and UDC epics, in Dafny

This project models two parts of the Raiden light client (`raiden-ts`) and proves properties of
the model.

1. **Transport helpers** (`raiden-ts/src/transport/utils.ts`, module `TransportUtils` in
   `transport_utils.dfy`). It covers:
   - extracting a peer address from a Matrix user id;
   - the capability ("caps") codec, which turns caps into URL query pairs and parses them back with
     value interpretation;
   - `getCap` with its fallback table;
   - the case-insensitive address sort;
   - the running set of peers that do not want `Delivered` messages;
   - validation of an incoming message line.
2. **User-deposit-contract (UDC) epics** (`raiden-ts/src/services/epics/udc.ts`, module `UdcEpics`
   in `udc_epics.dfy`). It covers:
   - the balance monitor;
   - the deposit flow;
   - the withdraw-plan request with its per-block poll;
   - the replay of an existing plan at startup;
   - the withdraw that follows a confirmed plan once its block has passed, with its per-block
     confirmation.

Two small support modules hold the shared pieces:
- `wrappers.dfy` (`Wrappers`): `Option` and `Result`.
- `text.dfy` (`Text`): ASCII lower-casing, digit strings, decimal rendering of naturals, and
  code-unit lexicographic order.

## How the model is built

- **Caps** are an association list `seq<(string, CapValue)>` in insertion order, standing for a
  JavaScript object. A value is a primitive (string, number, boolean, null) or a list of
  primitives.
- **The URL layer** is abstract:
  - `StringifyCaps` produces the list of search-parameter pairs that `url.searchParams.append`
    builds.
  - `ParseCaps` receives the string's search parameters through a function argument, where
    `None` means `new URL` threw.
  - `ParseCaps` and `StringifyCaps` are imperative methods with loops, proved against the
    functions `ParsePairs` and `Query`.
  - The round trip and the lookup properties are proved about those functions.
- **The no-delivery fold** is a class `NoDeliveryPeers`. It keeps one set, updated in place by
  each presence success, as the `scan` accumulator is.
- **Things the helpers call but that are not shown** are function parameters:
  - `getAddress` (the EIP-55 checksum);
  - `decodeJsonMessage`;
  - the "is signed" test and `getMessageSigner`;
  - the `CapsFallback` table and the name of the DELIVERY capability.

  An `Option` result of `None` stands for a thrown error.
- **UDC chain reads and transactions** are arguments of type `Result`. `Err` is an error that
  escapes the read retry (which retries network errors only), or a transaction that failed after
  its retry policy. Amounts are natural numbers.
- **The pure layer**: each epic's decision is a function with its own contract
  (`MonitorStep`, `DepositOutcome`, `PlanWithdrawRejection`, `PlanPollOutcome`, `StartupReplay`,
  `WithdrawRejection`, `WithdrawConfirmation`, ...).
- **The state layer**:
  - The state the epics hold between events is a `Snapshot`: the block number, the latest known
    UDC balance, the request queues, the poll and confirmation waits, the submitted contract
    calls, and each epic's emitted actions.
  - Each event is a step function on snapshots; `Inv` is the invariant they keep.
  - The class `UdcClient` holds that state in fields, with one method per event. Each method
    ensures `State() == <Step>(old(State()), ...)` and `Valid()`.
- **Deposit and plan requests** are queues handled one at a time, in arrival order, as
  `concatMap` does. The balance monitor runs at most once per `newBlock`. The plan poll runs once
  per `newBlock`, the withdraw confirmation once per distinct block number.
- **The action stream loop** is `UdcClient.Observe`: any action (emitted here or by another
  epic) is fed back through it.
- **Two modelling choices**:
  - The latest known `udcBalance` is taken to follow the balance of every `udcDeposit.success`
    action.
  - A failed balance read in the withdraw epic after maturity has no error handler in the
    source, so it ends the whole epic. The model records that as `withdrawHalted`, which drops
    every pending, matured and confirming withdraw.
- **Where the code is followed over the documentation**: value interpretation lower-cases the
  value first, so `FALSE` and `True` become booleans and `NULL` becomes null.

## Model

| member | source | states |
|---|---|---|
| Text.Lower | raiden-ts/src/transport/utils.ts:70 | the lower-cased string has the same length and each character is the ASCII lower case of the original |
| Text.NatToString | raiden-ts/src/transport/utils.ts:44-45 | `String(n)` of a number: the text is made of decimal digits only (below 10^21, where JavaScript switches to exponent notation) |
| Text.NatToStringValue | raiden-ts/src/transport/utils.ts:68 | the decimal digits written for a number read back (as a digit string) to that number |
| Text.LexLeTotal | raiden-ts/src/transport/utils.ts:103 | the string comparison used by the sort is total |
| Text.LexLeTransitive | raiden-ts/src/transport/utils.ts:103 | the string comparison used by the sort is transitive |
| TransportUtils.HexRunLength | raiden-ts/src/transport/utils.ts:17 | the run of hex digits counted from a position is bounded, all hex, and maximal |
| TransportUtils.UserIdCapture | raiden-ts/src/transport/utils.ts:17-28 | the user-id regex matches iff the id starts with `@0x`/`@0X`, 40 hex digits (either case) and `.` or `:`; the capture is the 42 characters after `@` |
| TransportUtils.GetAddressFromUserId | raiden-ts/src/transport/utils.ts:25-32 | no match gives undefined; a match gives exactly what checksumming the capture gives, undefined when it throws |
| TransportUtils.UserIdOfAddress | raiden-ts/src/transport/utils.ts:17-32 | any id built as `@0x` + 40 hex digits + a `.` or `:` + any server yields the checksum of its `0x...` part |
| TransportUtils.Interpret | raiden-ts/src/transport/utils.ts:66-74 | a value is a number iff all digits; otherwise null iff it lower-cases to none/null, boolean iff it lower-cases to true/false (true for true), else the raw string unchanged |
| TransportUtils.Show | raiden-ts/src/transport/utils.ts:44-45 | a string is written verbatim, a number as a decimal digit string that denotes it (through `Text.NatToString`), a boolean as `true`/`false` and null as `null`; for every non-string, interpreting the written text gives the value back |
| TransportUtils.ShowInterpret | raiden-ts/src/transport/utils.ts:66-74 | reading back the string written for a primitive gives the primitive, for any primitive a reader can tell apart |
| TransportUtils.InterpretIdempotent | raiden-ts/src/transport/utils.ts:66-74 | writing an interpreted value and interpreting it again changes nothing |
| TransportUtils.Find | raiden-ts/src/transport/utils.ts:75 | the index found is the first entry with the key, and None means no entry has it |
| TransportUtils.EmitItems | raiden-ts/src/transport/utils.ts:47 | a list entry is written as one pair per item, in list order, each under the entry's key with the item's written form |
| TransportUtils.EmitEntry | raiden-ts/src/transport/utils.ts:46-48 | every pair written for an entry is under that entry's key; a scalar entry writes exactly one pair, its key with the scalar's written form (a list entry is `EmitItems`) |
| TransportUtils.QueryKeys | raiden-ts/src/transport/utils.ts:41-51 | every search parameter written comes from a key of the caps |
| TransportUtils.StringifyCaps | raiden-ts/src/transport/utils.ts:41-51 | the loop appends exactly `Query(caps)`: per entry in order, one pair for a scalar, one pair per list item in list order, under the same key |
| TransportUtils.AppendEntry | raiden-ts/src/transport/utils.ts:47-48 | one entry appends exactly `EmitEntry(key, value)` to the parameters: its scalar once, or its list element by element |
| TransportUtils.QueryValues | raiden-ts/src/transport/utils.ts:46-49 | for caps with distinct keys, the raw values written under a key are the written form of that key's value (one for a scalar, the items in order for a list, none when absent) |
| TransportUtils.ParseCaps | raiden-ts/src/transport/utils.ts:60-85 | undefined for a missing or empty string or when the URL cannot be parsed; otherwise the loop builds exactly `ParsePairs` of the URL's search parameters |
| TransportUtils.Append | raiden-ts/src/transport/utils.ts:77-80 | a repeated key yields a list whose last item is the new value and whose earlier items are the old scalar or the old list items |
| TransportUtils.Insert | raiden-ts/src/transport/utils.ts:75-81 | the mapping gains one entry for a key not yet present and keeps its size for a repeated key |
| TransportUtils.ParseInto | raiden-ts/src/transport/utils.ts:65-82 | the mapping never shrinks and grows by at most one entry per pair |
| TransportUtils.ParsePairs | raiden-ts/src/transport/utils.ts:62-83 | the parsed caps have at most as many entries as there are search parameters |
| TransportUtils.InsertOther | raiden-ts/src/transport/utils.ts:75-81 | storing a value under one key leaves every other key's value unchanged |
| TransportUtils.InsertSame | raiden-ts/src/transport/utils.ts:75-81 | the first value of a key is stored as a scalar; later ones turn it into a list and are appended |
| TransportUtils.ParseLookup | raiden-ts/src/transport/utils.ts:62-82 | the parsed value of a key is undefined if the key never occurs, the interpreted value if it occurs once, and the list of interpreted values in order if it occurs more often |
| TransportUtils.InsertKeepsKeys | raiden-ts/src/transport/utils.ts:75-81 | storing a value keeps every key already present |
| TransportUtils.ParseIntoKeepsKeys | raiden-ts/src/transport/utils.ts:65-82 | processing more search parameters never removes a key already present |
| TransportUtils.InsertKeepsDistinct | raiden-ts/src/transport/utils.ts:75-81 | storing a value keeps every key in the result at most once |
| TransportUtils.ParsedKeysDistinct | raiden-ts/src/transport/utils.ts:62-82 | a parsed caps mapping has each key at most once |
| TransportUtils.ParseIntoConcat | raiden-ts/src/transport/utils.ts:65-82 | parsing a concatenation of pairs is parsing the second part into the result of the first |
| TransportUtils.ParseStringifyRoundTrip | raiden-ts/src/transport/utils.ts:41-85 | parsing what stringify writes gives the caps back, when keys are distinct, lists have at least two items and no string value reads as a number, null or boolean |
| TransportUtils.GetCap | raiden-ts/src/transport/utils.ts:92-94 | a stored value other than null is returned as is (false and 0 included); missing caps, a missing key or null give the fallback |
| TransportUtils.Truthy | raiden-ts/src/transport/utils.ts:116 | a capability value is falsy iff it is null, false, 0 or the empty string; every list is truthy |
| TransportUtils.InsertByLowerSorted | raiden-ts/src/transport/utils.ts:102-104 | inserting into a list sorted by lower-cased comparison keeps it sorted and adds exactly that element |
| TransportUtils.SortedAddresses | raiden-ts/src/transport/utils.ts:102-104 | the result is a permutation of the addresses and is ordered by lower-cased comparison |
| TransportUtils.NoDeliveryStep | raiden-ts/src/transport/utils.ts:115-119 | a non-presence action changes nothing; a presence success puts its peer in iff its DELIVERY cap is falsy, and no other peer changes |
| TransportUtils.NoDeliveryMembership | raiden-ts/src/transport/utils.ts:111-122 | after any stream of actions, a peer is in the set iff it has a presence success and the last one has a falsy DELIVERY cap |
| TransportUtils.NoDeliveryPeers.constructor | raiden-ts/src/transport/utils.ts:112-120 | the set starts (and is first emitted) empty |
| TransportUtils.NoDeliveryPeers.Observe | raiden-ts/src/transport/utils.ts:113-119 | the set is updated in place by one fold step; an emission happens exactly for a presence success; the set always equals the fold of all actions seen |
| TransportUtils.ParseMessage | raiden-ts/src/transport/utils.ts:135-158 | a non-string gives undefined; a message is returned iff it decodes and, when signed, its recovered signer is the sender; decode or signer errors give undefined |
| UdcEpics.MonitorStep | raiden-ts/src/services/epics/udc.ts:57-74 | a balance update is emitted iff the read succeeds and the balance differs from the latest known one, carrying the balance and total deposit |
| UdcEpics.DepositCalls | raiden-ts/src/services/epics/udc.ts:112-119 | `deposit(totalDeposit)` is sent iff on-chain deposited plus the amount is the requested total |
| UdcEpics.DepositOutcome | raiden-ts/src/services/epics/udc.ts:161-203 | exactly one success or failure, always with the request's meta; success iff the deposit is sent, mined, and the balance re-read succeeds, carrying that balance and the tx; an outdated deposit fails with requested/current; each failing step (token, funds, approve, deposited read, transaction, balance re-read) fails with its own error, checked in that order |
| UdcEpics.PlanWithdrawRejection | raiden-ts/src/services/epics/udc.ts:233-249 | the plan is sent iff the balance read succeeds and 0 < amount <= balance; amount 0 fails with GT_ZERO, amount above balance with EXCEEDS_AVAILABLE |
| UdcEpics.PlanCalls | raiden-ts/src/services/epics/udc.ts:238-249 | `planWithdraw(amount)` is sent exactly when the checks pass |
| UdcEpics.PlanPollOutcome | raiden-ts/src/services/epics/udc.ts:253-276 | the poll continues iff the read succeeds with plan amount below the request; otherwise success with the withdraw block, the tx and the meta, or failure with the meta |
| UdcEpics.PlanRequestOutput | raiden-ts/src/services/epics/udc.ts:230-277 | at most one plan success or failure with the request's meta; nothing only when the plan was sent and the poll must go on; a failed check gives its failure, a failed transaction its error, a sent plan the first poll's outcome; a success carries the plan's withdraw block and the tx, with `confirmed` undefined, for a plan amount at least the requested one |
| UdcEpics.StartupReplay | raiden-ts/src/services/epics/udc.ts:298-312 | a confirmed plan success for the plan's amount and block is replayed iff the read succeeds with withdraw_block > 0 |
| UdcEpics.WithdrawRejection | raiden-ts/src/services/epics/udc.ts:358-363 | the withdraw fails with NO_BALANCE iff the balance is 0 |
| UdcEpics.WithdrawCalls | raiden-ts/src/services/epics/udc.ts:357-364 | `withdraw(meta.amount)` is sent iff the balance is not zero |
| UdcEpics.WithdrawConfirmation | raiden-ts/src/services/epics/udc.ts:368-391 | the wait continues iff the read succeeds and the balance has not dropped; success iff it dropped strictly, with withdrawal = before - after > 0 and the meta; a read error fails with the meta |
| UdcEpics.WithdrawOutput | raiden-ts/src/services/epics/udc.ts:355-392 | at most one withdraw success (positive) or plan failure with the plan's meta; nothing only when the withdraw was sent and the wait goes on; zero balance fails with NO_BALANCE, a failed transaction with its error, a sent withdraw gives the first read's outcome; a success reports before - after for a read below the balance, with the tx |
| UdcEpics.NewBlockStep | raiden-ts/src/services/epics/udc.ts:52-54 | a newBlock sets the block number and counts one more block; nothing else changes |
| UdcEpics.ObserveStep | raiden-ts/src/services/epics/udc.ts:334-336 | a deposit success sets the latest known balance; a plan success with `confirmed` true joins the pending withdraws, unless the withdraw epic has stopped; nothing else changes |
| UdcEpics.MonitorBalanceStep | raiden-ts/src/services/epics/udc.ts:52-75 | at most one check per newBlock; a balance update is logged iff the check runs and `MonitorStep` gives one; only the check mark and the update log change |
| UdcEpics.RequestDepositStep | raiden-ts/src/services/epics/udc.ts:159-161 | a deposit request joins the back of the queue; nothing else changes |
| UdcEpics.ProcessDepositStep | raiden-ts/src/services/epics/udc.ts:161-203 | with a request queued, the oldest leaves the queue, its outcome is logged and its deposit call recorded; an empty queue changes nothing |
| UdcEpics.RequestPlanStep | raiden-ts/src/services/epics/udc.ts:228-230 | a plan request joins the back of the queue; nothing else changes |
| UdcEpics.ProcessPlanRequestStep | raiden-ts/src/services/epics/udc.ts:230-277 | while a plan polls, or with no request, nothing changes; otherwise the oldest request leaves the queue, its calls and output are logged, and it goes on polling exactly when it emitted nothing, then for that request's amount with the sent transaction and the current block count |
| UdcEpics.PollPlanStep | raiden-ts/src/services/epics/udc.ts:253-264 | a poll runs only for a polling request not yet polled since the last newBlock; it logs the poll's outcome and keeps polling exactly when there is none |
| UdcEpics.CheckWithdrawPlannedStep | raiden-ts/src/services/epics/udc.ts:298-312 | the first check logs the startup replay and marks it done; later checks change nothing |
| UdcEpics.AwaitMaturityStep | raiden-ts/src/services/epics/udc.ts:337-354 | a pending plan moves on only once the block number is past its block; a good read moves it, with that balance, to the back of the matured queue; a failed read stops the withdraw epic and drops all it holds |
| UdcEpics.StartWithdrawStep | raiden-ts/src/services/epics/udc.ts:355-367 | while a withdraw confirms, or with none matured, nothing changes; otherwise the oldest matured plan leaves the queue, its call and output are logged, and it waits for confirmation exactly when it emitted nothing, then with the plan's meta, the balance read, the sent transaction and the current block number |
| UdcEpics.ConfirmWithdrawStep | raiden-ts/src/services/epics/udc.ts:368-391 | a re-read runs only for a confirming withdraw at a block number it has not checked; it logs the outcome and keeps waiting exactly when there is none |
| UdcEpics.InitialInv | raiden-ts/src/services/epics/udc.ts:52-394 | the initial state, with nothing requested or emitted, satisfies the invariant |
| UdcEpics.NewBlockKeepsInv | raiden-ts/src/services/epics/udc.ts:52-54 | a newBlock keeps the invariant |
| UdcEpics.ObserveKeepsInv | raiden-ts/src/services/epics/udc.ts:334-336 | feeding back any action keeps the invariant |
| UdcEpics.MonitorBalanceKeepsInv | raiden-ts/src/services/epics/udc.ts:52-75 | a balance check keeps the invariant |
| UdcEpics.RequestDepositKeepsInv | raiden-ts/src/services/epics/udc.ts:159-161 | queuing a deposit request keeps the invariant, with its meta added to the arrivals |
| UdcEpics.ProcessDepositKeepsInv | raiden-ts/src/services/epics/udc.ts:161-203 | resolving the oldest deposit keeps every request resolved once, in arrival order |
| UdcEpics.RequestPlanKeepsInv | raiden-ts/src/services/epics/udc.ts:228-230 | queuing a plan request keeps the invariant |
| UdcEpics.ProcessPlanRequestKeepsInv | raiden-ts/src/services/epics/udc.ts:230-277 | handling a plan request keeps the invariant (only positive plans are sent and polled) |
| UdcEpics.PollPlanKeepsInv | raiden-ts/src/services/epics/udc.ts:253-264 | a poll keeps the invariant |
| UdcEpics.CheckWithdrawPlannedKeepsInv | raiden-ts/src/services/epics/udc.ts:298-312 | the startup replay keeps the invariant |
| UdcEpics.AwaitMaturityKeepsInv | raiden-ts/src/services/epics/udc.ts:337-354 | maturing a plan, or stopping on a read error, keeps the invariant |
| UdcEpics.StartWithdrawKeepsInv | raiden-ts/src/services/epics/udc.ts:355-367 | starting a withdraw keeps the invariant (only a non-zero balance is awaited) |
| UdcEpics.ConfirmWithdrawKeepsInv | raiden-ts/src/services/epics/udc.ts:368-391 | a confirmation read keeps every reported withdrawal positive |
| UdcEpics.NextResolutionIsOldest | raiden-ts/src/services/epics/udc.ts:161 | deposit requests are resolved one at a time in arrival order: the next result carries the meta of the oldest unresolved request |
| UdcEpics.DepositSentOnlyWhenCurrent | raiden-ts/src/services/epics/udc.ts:112-119 | a deposit transaction is submitted iff the deposit is not outdated, and then for the requested total |
| UdcEpics.MonitorOncePerBlock | raiden-ts/src/services/epics/udc.ts:52-57 | a second balance check before the next newBlock changes nothing |
| UdcEpics.MonitorResumesAfterNewBlock | raiden-ts/src/services/epics/udc.ts:52-74 | whatever the last read did, failure included, the next newBlock brings a check against the latest known balance |
| UdcEpics.PollOncePerBlock | raiden-ts/src/services/epics/udc.ts:259-262 | a second poll before the next newBlock changes nothing |
| UdcEpics.PollResumesAfterNewBlock | raiden-ts/src/services/epics/udc.ts:259-262 | while a request polls, each newBlock brings one more read of the plan record, with its outcome logged |
| UdcEpics.ConfirmOncePerBlock | raiden-ts/src/services/epics/udc.ts:369-371 | a second re-read at the same block number changes nothing |
| UdcEpics.ConfirmResumesOnNewBlockNumber | raiden-ts/src/services/epics/udc.ts:369-376 | while a withdraw confirms, a block number it has not checked brings one more balance read, with its outcome logged |
| UdcEpics.PlanReportedAfterPoll | raiden-ts/src/services/epics/udc.ts:253-276 | a sent plan whose request emitted nothing, after a new block and a poll read covering the requested amount, reports a success with the plan's withdraw block, the sent transaction and the request's meta |
| UdcEpics.WithdrawReportedAfterDrop | raiden-ts/src/services/epics/udc.ts:368-391 | a sent withdraw that emitted nothing, after a new block number and a balance read below the one before, reports a success for the difference with the sent transaction and the plan's meta |
| UdcEpics.ReplayOnce | raiden-ts/src/services/epics/udc.ts:298-305 | the startup plan check runs once and emits at most one action |
| UdcEpics.PlanRequestsWaitForPoll | raiden-ts/src/services/epics/udc.ts:230-264 | while a plan request is polling, the next request is not started |
| UdcEpics.PlanSentOnlyWhenValid | raiden-ts/src/services/epics/udc.ts:238-249 | a plan transaction is submitted only for the oldest request, with a positive amount within the balance read |
| UdcEpics.MaturesOnlyAfterBlock | raiden-ts/src/services/epics/udc.ts:337-342 | a pending plan moves on only when the block number is strictly past its withdraw block |
| UdcEpics.WithdrawCalledOnlyWithBalance | raiden-ts/src/services/epics/udc.ts:355-364 | `withdraw` is submitted only for the oldest matured plan, for its amount, and only with a non-zero balance |
| UdcEpics.HaltedStaysQuiet | raiden-ts/src/services/epics/udc.ts:345-354 | once the withdraw epic has stopped on an uncaught read error it holds, submits and reports nothing more |
| UdcEpics.UdcClient.constructor | raiden-ts/src/services/epics/udc.ts:52-54 | the client starts in the initial state: nothing queued, nothing emitted, startup checks pending |
| UdcEpics.UdcClient.NewBlock | raiden-ts/src/services/epics/udc.ts:53 | the state becomes `NewBlockStep` of the old one, and the invariant holds |
| UdcEpics.UdcClient.Observe | raiden-ts/src/services/epics/udc.ts:334-336 | the state becomes `ObserveStep` of the old one: a deposit success sets the known balance, a confirmed plan success becomes a pending withdraw |
| UdcEpics.UdcClient.MonitorBalance | raiden-ts/src/services/epics/udc.ts:52-75 | the state becomes `MonitorBalanceStep` of the old one |
| UdcEpics.UdcClient.RequestDeposit | raiden-ts/src/services/epics/udc.ts:159-161 | the request joins the deposit queue and the arrivals |
| UdcEpics.UdcClient.ProcessDeposit | raiden-ts/src/services/epics/udc.ts:161-203 | the oldest deposit request is taken off the queue, its outcome emitted and its deposit call recorded, as `ProcessDepositStep` |
| UdcEpics.UdcClient.RequestPlanWithdraw | raiden-ts/src/services/epics/udc.ts:228-230 | the request joins the plan queue |
| UdcEpics.UdcClient.ProcessPlanRequest | raiden-ts/src/services/epics/udc.ts:230-277 | the state becomes `ProcessPlanRequestStep` of the old one |
| UdcEpics.UdcClient.PollPlan | raiden-ts/src/services/epics/udc.ts:253-264 | the state becomes `PollPlanStep` of the old one |
| UdcEpics.UdcClient.CheckWithdrawPlanned | raiden-ts/src/services/epics/udc.ts:298-312 | the state becomes `CheckWithdrawPlannedStep` of the old one |
| UdcEpics.UdcClient.AwaitMaturity | raiden-ts/src/services/epics/udc.ts:337-354 | the state becomes `AwaitMaturityStep` of the old one |
| UdcEpics.UdcClient.StartWithdraw | raiden-ts/src/services/epics/udc.ts:355-367 | the state becomes `StartWithdrawStep` of the old one |
| UdcEpics.UdcClient.ConfirmWithdraw | raiden-ts/src/services/epics/udc.ts:368-391 | the state becomes `ConfirmWithdrawStep` of the old one |

## Left out

- URL parsing and percent-encoding (`new URL`, `url.href`): the codec works on the list of search-parameter pairs. A caps string that `new URL` rejects is an argument returning `None`.
- Object key order: JavaScript puts integer-like keys before other keys in `Object.entries`. The model keeps insertion order for all keys.
- Inherited object properties: `key in result` is also true for keys such as `constructor` that exist on the object prototype. The model treats every key as absent until stored.
- `jsonParse` (`raiden-ts/src/utils/data.ts`) is not part of this model. A digit string is read as its decimal value, so precision limits, big-number wrapping and leading-zero handling are not modelled. Numbers in caps are natural numbers.
- TransportUtils.Show: a number is written as its plain decimal digits. JavaScript's `String(n)` does that only below 10^21 and uses exponent notation ("1e+21") from there on, so `ShowInterpret` and `ParseStringifyRoundTrip` also cover numbers that the program itself does not round-trip.
- Lower-casing is ASCII only, and the sort compares lower-cased strings by code unit rather than `localeCompare`. The two agree on hex addresses.
- Checksum, decoding and signatures: `getAddress`, `decodeJsonMessage`, the signed-message test and `getMessageSigner` are uninterpreted function arguments.
- `constants.ts` is not part of this model. `CapsFallback` and `Capabilities.DELIVERY` are arguments.
- Logging on message errors is not modelled.
- NoDeliveryPeers.Observe: the emitted value is the same shared `Set` object each time. The model reports whether an emission happens and exposes the one set, but does not model other holders of that reference seeing later changes.
- Helper internals: `retryAsync$`, `retryWhile`, `assertTx`, `approveIfNeeded$`, `chooseOnchainAccount`, `getContractWithSigner` and `intervalFromConfig` are not modelled. Each read or transaction is one `Result` argument, giving its final outcome after retries. In particular, `retryWhile` re-running the whole deposit on a transaction error is folded into that outcome.
- RxJS scheduling: the model captures only the ordering consequences of `exhaustMap`, `concatMap` and `mergeMap`, and has no timing or `pollingInterval`. Reads are atomic steps.
- The order in which different epics' actions interleave on the root stream is not modelled: each epic keeps its own ordered log.
- Confirmation: a plan success carries `confirmed` as an `Option<bool>`, with `None` for undefined. Deposit successes come in two kinds. The monitor's balance updates carry no `confirmed` key (udc.ts:74). The deposit epic's successes (udc.ts:196) and the withdraw successes (udc.ts:384) carry `confirmed: undefined`. The model gives none of them a `confirmed` field; `tx` tells the two kinds of deposit success apart, `None` for the monitor and `Some` for the deposit epic. The confirmation epic that later re-emits plan successes with `confirmed: true` is outside the model; its actions enter through `UdcClient.Observe`.
- `latest$` is not part of this model. The latest known UDC balance is assumed to follow every `udcDeposit.success`.
- The subkey choice for deposits (`action.payload.subkey ?? config.subkey`) and the signer used are not modelled.
- BigNumber arithmetic: amounts are unbounded naturals, so overflow is not modelled.
- An uncaught error from the startup replay's read, or from the withdraw epic's balance read, is not propagated to the rest of the client. The model only stops that epic (or emits nothing).
