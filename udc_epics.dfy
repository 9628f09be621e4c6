/**
 * The user-deposit-contract (UDC) epics of the client: the balance monitor, the deposit flow,
 * the withdraw plan flow with its per-block poll, the replay of a plan found at startup, and the
 * withdraw that follows a confirmed plan once its block has passed.
 *
 * The contract reads and transactions are abstract: every read or transaction a step makes is a
 * parameter of type `Result`, where `Err` is an error that escapes the read retry (which retries
 * network errors only) or a transaction that failed after its retry policy. Amounts are natural
 * numbers. Actions carry the request's `meta`, by which consumers correlate them.
 */
module UdcEpics {
  import opened Wrappers

  datatype TxInfo = TxInfo(txHash: string, txBlock: nat)

  /** The on-chain withdraw plan of the account: `withdraw_plans(address)`. */
  datatype Plan = Plan(amount: nat, withdrawBlock: nat)

  datatype DepositMeta = DepositMeta(totalDeposit: nat)
  datatype PlanMeta = PlanMeta(amount: nat)

  /** A udcDeposit.request: the amount to add and, as meta, the total deposit it should reach. */
  datatype DepositRequest = DepositRequest(deposit: nat, meta: DepositMeta)

  datatype UdcError =
    | DepositOutdated(requested: nat, current: nat)
    | PlanWithdrawGtZero(amount: nat)
    | PlanWithdrawExceedsAvailable(balance: nat, amount: nat)
    | WithdrawNoBalance(balance: nat)
    | Raised(reason: string)   // an error raised by an abstract read or transaction

  /** The actions these epics emit. `tx` is absent for the monitor's balance updates and for replays. */
  datatype Action =
    | DepositSuccess(balance: nat, tx: Option<TxInfo>, depositMeta: DepositMeta)
    | DepositFailure(error: UdcError, depositMeta: DepositMeta)
    | PlanSuccess(block: nat, tx: Option<TxInfo>, confirmed: Option<bool>, planMeta: PlanMeta)
    | PlanFailure(error: UdcError, planMeta: PlanMeta)
    | WithdrawSuccess(withdrawal: nat, withdrawTx: TxInfo, planMeta: PlanMeta)

  /** The state-changing UDC contract calls the client submits. */
  datatype ChainCall = Deposit(totalDeposit: nat) | PlanWithdraw(amount: nat) | Withdraw(amount: nat)

  // ---------------------------------------------------------------------------------------------
  // monitorUdcBalanceEpic

  /**
   * One balance check: a read of `(effectiveBalance, total_deposit)` gives a balance update only
   * when the balance differs from the latest known one; a failed read gives nothing.
   */
  function MonitorStep(known: nat, read: Result<(nat, nat)>): (r: Option<Action>)
    ensures r.Some? <==> read.Ok? && read.value.0 != known
    ensures r.Some? ==> r.value == DepositSuccess(read.value.0, None, DepositMeta(read.value.1))
  {
    match read
    case Err(_) => None
    case Ok(v) => if v.0 == known then None else Some(DepositSuccess(v.0, None, DepositMeta(v.1)))
  }

  // ---------------------------------------------------------------------------------------------
  // udcDepositEpic and makeUdcDeposit$

  /**
   * The outcomes of the abstract steps of one deposit, in order: the `token()` read, the
   * `balanceOf`/`allowance` reads, the approval if one is needed, the `total_deposit` read, the
   * deposit transaction and the `effectiveBalance` read after it.
   */
  datatype DepositRun = DepositRun(token: Result<()>, funds: Result<()>, approve: Result<()>,
                                   deposited: Result<nat>, tx: Result<TxInfo>, balance: Result<nat>)

  /** Every step before the outdated-deposit check went through. */
  predicate ReachesCheck(run: DepositRun)
  {
    run.token.Ok? && run.funds.Ok? && run.approve.Ok? && run.deposited.Ok?
  }

  /** The deposit transaction is sent: the on-chain deposit plus the requested amount is the requested total. */
  predicate DepositSent(req: DepositRequest, run: DepositRun)
  {
    ReachesCheck(run) && run.deposited.value + req.deposit == req.meta.totalDeposit
  }

  /** The deposit transaction the request sends, if it passes the check. */
  function DepositCalls(req: DepositRequest, run: DepositRun): (calls: seq<ChainCall>)
    ensures calls == [] || calls == [Deposit(req.meta.totalDeposit)]
    ensures calls != [] <==> DepositSent(req, run)
  {
    if DepositSent(req, run) then [Deposit(req.meta.totalDeposit)] else []
  }

  /** The one action a deposit request resolves to. */
  function DepositOutcome(req: DepositRequest, run: DepositRun): (a: Action)
    ensures a.DepositSuccess? || a.DepositFailure?
    ensures a.depositMeta == req.meta
    ensures a.DepositSuccess? <==> DepositSent(req, run) && run.tx.Ok? && run.balance.Ok?
    ensures a.DepositSuccess? ==> a.balance == run.balance.value && a.tx == Some(run.tx.value)
    ensures ReachesCheck(run) && !DepositSent(req, run)
            ==> a.error == DepositOutdated(req.meta.totalDeposit, run.deposited.value)
    ensures run.token.Err? ==> a.error == Raised(run.token.reason)
    ensures run.token.Ok? && run.funds.Err? ==> a.error == Raised(run.funds.reason)
    ensures run.token.Ok? && run.funds.Ok? && run.approve.Err? ==> a.error == Raised(run.approve.reason)
    ensures run.token.Ok? && run.funds.Ok? && run.approve.Ok? && run.deposited.Err?
            ==> a.error == Raised(run.deposited.reason)
    ensures DepositSent(req, run) && run.tx.Err? ==> a.error == Raised(run.tx.reason)
    ensures DepositSent(req, run) && run.tx.Ok? && run.balance.Err? ==> a.error == Raised(run.balance.reason)
  {
    if run.token.Err? then DepositFailure(Raised(run.token.reason), req.meta)
    else if run.funds.Err? then DepositFailure(Raised(run.funds.reason), req.meta)
    else if run.approve.Err? then DepositFailure(Raised(run.approve.reason), req.meta)
    else if run.deposited.Err? then DepositFailure(Raised(run.deposited.reason), req.meta)
    else if run.deposited.value + req.deposit != req.meta.totalDeposit then
      DepositFailure(DepositOutdated(req.meta.totalDeposit, run.deposited.value), req.meta)
    else if run.tx.Err? then DepositFailure(Raised(run.tx.reason), req.meta)
    else if run.balance.Err? then DepositFailure(Raised(run.balance.reason), req.meta)
    else DepositSuccess(run.balance.value, Some(run.tx.value), req.meta)
  }

  // ---------------------------------------------------------------------------------------------
  // udcWithdrawPlanRequestEpic

  /**
   * The checks before `planWithdraw`: after reading `balances(address)`, the amount must be
   * positive and at most the balance. None means the plan transaction is sent.
   */
  function PlanWithdrawRejection(amount: nat, balance: Result<nat>): (e: Option<UdcError>)
    ensures e.None? <==> balance.Ok? && 0 < amount <= balance.value
    ensures balance.Err? ==> e == Some(Raised(balance.reason))
    ensures balance.Ok? && amount == 0 ==> e == Some(PlanWithdrawGtZero(amount))
    ensures balance.Ok? && 0 < amount && balance.value < amount
            ==> e == Some(PlanWithdrawExceedsAvailable(balance.value, amount))
  {
    match balance
    case Err(reason) => Some(Raised(reason))
    case Ok(b) =>
      if amount == 0 then Some(PlanWithdrawGtZero(amount))
      else if b < amount then Some(PlanWithdrawExceedsAvailable(b, amount))
      else None
  }

  /**
   * One read of the plan record after the plan transaction: success once the planned amount
   * covers the request, a failure if the read fails, and None (keep polling) otherwise.
   */
  function PlanPollOutcome(meta: PlanMeta, tx: TxInfo, read: Result<Plan>): (r: Option<Action>)
    ensures r.None? <==> read.Ok? && read.value.amount < meta.amount
    ensures r.Some? && read.Ok? ==> r.value == PlanSuccess(read.value.withdrawBlock, Some(tx), None, meta)
    ensures read.Err? ==> r == Some(PlanFailure(Raised(read.reason), meta))
  {
    match read
    case Err(reason) => Some(PlanFailure(Raised(reason), meta))
    case Ok(plan) =>
      if plan.amount < meta.amount then None
      else Some(PlanSuccess(plan.withdrawBlock, Some(tx), None, meta))
  }

  /** The plan transaction the request sends: only one that passes the checks. */
  function PlanCalls(meta: PlanMeta, balance: Result<nat>): (calls: seq<ChainCall>)
    ensures calls == [] || calls == [PlanWithdraw(meta.amount)]
    ensures calls != [] <==> PlanWithdrawRejection(meta.amount, balance).None?
  {
    if PlanWithdrawRejection(meta.amount, balance).None? then [PlanWithdraw(meta.amount)] else []
  }

  /**
   * What the plan request epic emits at once for one request, given the balance read, the plan
   * transaction and the first read of the plan record: nothing only when it goes on polling.
   */
  function PlanRequestOutput(meta: PlanMeta, balance: Result<nat>, tx: Result<TxInfo>, plan: Result<Plan>): (r: seq<Action>)
    ensures r == [] || (|r| == 1 && (r[0].PlanSuccess? || r[0].PlanFailure?) && r[0].planMeta == meta)
    ensures r == [] <==> PlanCalls(meta, balance) != [] && tx.Ok? && PlanPollOutcome(meta, tx.value, plan).None?
    ensures PlanWithdrawRejection(meta.amount, balance).Some?
            ==> r == [PlanFailure(PlanWithdrawRejection(meta.amount, balance).value, meta)]
    ensures PlanWithdrawRejection(meta.amount, balance).None? && tx.Err? ==> r == [PlanFailure(Raised(tx.reason), meta)]
    ensures PlanWithdrawRejection(meta.amount, balance).None? && tx.Ok?
            ==> r == OptionToSeq(PlanPollOutcome(meta, tx.value, plan))
    ensures r != [] && r[0].PlanSuccess?
            ==> && PlanCalls(meta, balance) != [] && tx.Ok? && plan.Ok? && meta.amount <= plan.value.amount
                && r[0] == PlanSuccess(plan.value.withdrawBlock, Some(tx.value), None, meta)
  {
    var rejection := PlanWithdrawRejection(meta.amount, balance);
    if rejection.Some? then [PlanFailure(rejection.value, meta)]
    else if tx.Err? then [PlanFailure(Raised(tx.reason), meta)]
    else OptionToSeq(PlanPollOutcome(meta, tx.value, plan))
  }

  // ---------------------------------------------------------------------------------------------
  // udcCheckWithdrawPlannedEpic

  /**
   * The plan found at startup is replayed as a confirmed plan success for its amount exactly
   * when it has a withdraw block; a failed read replays nothing.
   */
  function StartupReplay(read: Result<Plan>): (r: Option<Action>)
    ensures r.Some? <==> read.Ok? && read.value.withdrawBlock > 0
    ensures r.Some? ==> r.value == PlanSuccess(read.value.withdrawBlock, None, Some(true), PlanMeta(read.value.amount))
  {
    match read
    case Err(_) => None
    case Ok(plan) =>
      if plan.withdrawBlock > 0 then Some(PlanSuccess(plan.withdrawBlock, None, Some(true), PlanMeta(plan.amount)))
      else None
  }

  // ---------------------------------------------------------------------------------------------
  // udcWithdrawPlannedEpic

  /** The check before `withdraw`: a zero balance fails, anything else sends the transaction. */
  function WithdrawRejection(balance: nat): (e: Option<UdcError>)
    ensures e.Some? <==> balance == 0
    ensures e.Some? ==> e.value == WithdrawNoBalance(balance)
  {
    if balance == 0 then Some(WithdrawNoBalance(balance)) else None
  }

  /**
   * One balance read after the withdraw transaction: success, with the withdrawn amount, once the
   * balance is strictly below the balance before the withdraw; a failure if the read fails; None
   * (keep waiting) otherwise.
   */
  function WithdrawConfirmation(meta: PlanMeta, before: nat, tx: TxInfo, read: Result<nat>): (r: Option<Action>)
    ensures r.None? <==> read.Ok? && before <= read.value
    ensures r.Some? && read.Ok? ==> r.value == WithdrawSuccess(before - read.value, tx, meta)
    ensures r.Some? && r.value.WithdrawSuccess? ==> read.Ok? && r.value.withdrawal > 0 && read.value + r.value.withdrawal == before
    ensures read.Err? ==> r == Some(PlanFailure(Raised(read.reason), meta))
  {
    match read
    case Err(reason) => Some(PlanFailure(Raised(reason), meta))
    case Ok(balance) =>
      if balance < before then Some(WithdrawSuccess(before - balance, tx, meta)) else None
  }

  /** A matured plan whose pre-withdraw balance has been read. */
  datatype MaturedWithdraw = MaturedWithdraw(meta: PlanMeta, balance: nat)

  /** The withdraw transaction a matured plan sends: only when the balance is not zero. */
  function WithdrawCalls(w: MaturedWithdraw): (calls: seq<ChainCall>)
    ensures calls == [] || calls == [Withdraw(w.meta.amount)]
    ensures calls != [] <==> w.balance > 0
  {
    if WithdrawRejection(w.balance).None? then [Withdraw(w.meta.amount)] else []
  }

  /**
   * What the withdraw epic emits at once for one matured plan, given the withdraw transaction and
   * the first balance read after it: nothing only when it goes on waiting for the balance to drop.
   */
  function WithdrawOutput(w: MaturedWithdraw, tx: Result<TxInfo>, read: Result<nat>): (r: seq<Action>)
    ensures r == [] || (|r| == 1 && (r[0].PlanFailure? || (r[0].WithdrawSuccess? && r[0].withdrawal > 0)) && r[0].planMeta == w.meta)
    ensures r == [] <==> w.balance > 0 && tx.Ok? && WithdrawConfirmation(w.meta, w.balance, tx.value, read).None?
    ensures w.balance == 0 ==> r == [PlanFailure(WithdrawNoBalance(0), w.meta)]
    ensures w.balance > 0 && tx.Err? ==> r == [PlanFailure(Raised(tx.reason), w.meta)]
    ensures w.balance > 0 && tx.Ok? ==> r == OptionToSeq(WithdrawConfirmation(w.meta, w.balance, tx.value, read))
    ensures r != [] && r[0].WithdrawSuccess?
            ==> && w.balance > 0 && tx.Ok? && read.Ok? && read.value < w.balance
                && r[0] == WithdrawSuccess(w.balance - read.value, tx.value, w.meta)
  {
    var rejection := WithdrawRejection(w.balance);
    if rejection.Some? then [PlanFailure(rejection.value, w.meta)]
    else if tx.Err? then [PlanFailure(Raised(tx.reason), w.meta)]
    else OptionToSeq(WithdrawConfirmation(w.meta, w.balance, tx.value, read))
  }

  // ---------------------------------------------------------------------------------------------
  // What the epics have emitted

  /** The action resolves a deposit request (the monitor's updates carry no transaction). */
  predicate ResolvesDeposit(a: Action)
  {
    a.DepositFailure? || (a.DepositSuccess? && a.tx.Some?)
  }

  /** The metas of the deposit requests resolved in `out`, in order. */
  function DepositResolutions(out: seq<Action>): seq<DepositMeta>
  {
    if out == [] then []
    else DepositResolutions(out[..|out| - 1])
         + (if ResolvesDeposit(out[|out| - 1]) then [out[|out| - 1].depositMeta] else [])
  }

  function RequestMetas(ds: seq<DepositRequest>): seq<DepositMeta>
  {
    if ds == [] then [] else [ds[0].meta] + RequestMetas(ds[1..])
  }

  lemma {:induction false} RequestMetasAppend(ds: seq<DepositRequest>, d: DepositRequest)
    ensures RequestMetas(ds + [d]) == RequestMetas(ds) + [d.meta]
    decreases |ds|
  {
    if ds != [] {
      assert (ds + [d])[1..] == ds[1..] + [d];
      RequestMetasAppend(ds[1..], d);
    }
  }

  lemma ResolutionsAppend(out: seq<Action>, a: Action)
    ensures DepositResolutions(out + [a])
            == DepositResolutions(out) + (if ResolvesDeposit(a) then [a.depositMeta] else [])
  {
    assert (out + [a])[..|out|] == out;
  }

  /**
   * The deposit part of the invariant: the resolutions emitted so far followed by the requests
   * still queued are the arrivals, in order, and every emitted action resolves a request.
   */
  ghost predicate DepositsInOrder(out: seq<Action>, ds: seq<DepositRequest>, arrivals: seq<DepositMeta>)
  {
    && DepositResolutions(out) + RequestMetas(ds) == arrivals
    && (forall i :: 0 <= i < |out| ==> ResolvesDeposit(out[i]))
  }

  /** Resolving the oldest deposit request keeps the arrival order of resolutions. */
  lemma EmitDeposit(out: seq<Action>, ds: seq<DepositRequest>, o: Action, arrivals: seq<DepositMeta>)
    requires DepositsInOrder(out, ds, arrivals)
    requires ds != [] && ResolvesDeposit(o) && o.depositMeta == ds[0].meta
    ensures DepositsInOrder(out + [o], ds[1..], arrivals)
  {
    var done, rest := DepositResolutions(out), RequestMetas(ds[1..]);
    ResolutionsAppend(out, o);
    assert RequestMetas(ds) == [ds[0].meta] + rest;
    assert (done + [o.depositMeta]) + rest == done + ([ds[0].meta] + rest);
    AllResolveAppend(out, o);
  }

  lemma AllResolveAppend(out: seq<Action>, o: Action)
    requires forall i :: 0 <= i < |out| ==> ResolvesDeposit(out[i])
    requires ResolvesDeposit(o)
    ensures forall i :: 0 <= i < |out + [o]| ==> ResolvesDeposit((out + [o])[i])
  {
    forall i | 0 <= i < |out + [o]|
      ensures ResolvesDeposit((out + [o])[i])
    {
      if i < |out| {
        assert (out + [o])[i] == out[i];
      }
    }
  }

  predicate PositiveWithdrawals(out: seq<Action>)
  {
    forall i :: 0 <= i < |out| ==> out[i].WithdrawSuccess? ==> out[i].withdrawal > 0
  }

  predicate PositivePlanCalls(calls: seq<ChainCall>)
  {
    forall i :: 0 <= i < |calls| ==> calls[i].PlanWithdraw? ==> calls[i].amount > 0
  }

  lemma PositiveWithdrawalsAppend(out: seq<Action>, emitted: seq<Action>)
    requires PositiveWithdrawals(out)
    requires emitted == [] || (|emitted| == 1 && (!emitted[0].WithdrawSuccess? || emitted[0].withdrawal > 0))
    ensures PositiveWithdrawals(out + emitted)
  {
  }

  lemma PositivePlanCallsAppend(calls: seq<ChainCall>, more: seq<ChainCall>)
    requires PositivePlanCalls(calls)
    requires forall i :: 0 <= i < |more| ==> !more[i].PlanWithdraw? || more[i].amount > 0
    ensures PositivePlanCalls(calls + more)
  {
  }

  // ---------------------------------------------------------------------------------------------
  // The client: what the epics hold between blocks

  /** A plan transaction that went through, whose plan record is polled once per new block. */
  datatype PlanPoll = PlanPoll(meta: PlanMeta, tx: TxInfo, polledAt: nat)

  /** A confirmed plan success waiting for its block to pass. */
  datatype PendingWithdraw = PendingWithdraw(block: nat, meta: PlanMeta)

  /** A withdraw transaction that went through, waiting for the balance to drop below `balance`. */
  datatype WithdrawWait = WithdrawWait(meta: PlanMeta, balance: nat, tx: TxInfo, checkedAt: nat)

  /**
   * Everything the UDC epics hold. `calls` is every UDC transaction they submitted; each epic's
   * emitted actions, in order, are in its own log (balanceUpdates, depositOut, planOut, replayOut,
   * withdrawOut). Deposit and plan requests wait in arrival order and are handled one at a time;
   * a plan request holds its queue until its poll ends, a withdraw until its confirmation ends.
   * `monitoredAt` is the count of newBlock actions at the last balance check, -1 before the
   * startup check.
   */
  datatype Snapshot = Snapshot(
    blockNumber: nat, newBlocks: nat, udcBalance: nat, calls: seq<ChainCall>,
    monitoredAt: int, balanceUpdates: seq<Action>,
    deposits: seq<DepositRequest>, depositOut: seq<Action>,
    planRequests: seq<PlanMeta>, polling: Option<PlanPoll>, planOut: seq<Action>,
    replayed: bool, replayOut: seq<Action>,
    pending: seq<PendingWithdraw>, withdrawHalted: bool,
    matured: seq<MaturedWithdraw>, confirming: Option<WithdrawWait>, withdrawOut: seq<Action>)

  function Initial(blockNumber: nat, udcBalance: nat): Snapshot
  {
    Snapshot(blockNumber, 0, udcBalance, [], -1, [], [], [], [], None, [], false, [], [], false, [], None, [])
  }

  /**
   * What every reachable state satisfies, given the metas of the deposit requests in arrival
   * order: each request is resolved exactly once and in that order, no reported withdrawal is
   * zero, no plan transaction is sent for zero, and a stopped withdraw epic holds nothing.
   */
  ghost predicate Inv(s: Snapshot, arrivals: seq<DepositMeta>)
  {
    && DepositsInOrder(s.depositOut, s.deposits, arrivals)
    && PositiveWithdrawals(s.withdrawOut)
    && PositivePlanCalls(s.calls)
    && (s.polling.Some? ==> 0 < s.polling.value.meta.amount && s.polling.value.polledAt <= s.newBlocks)
    && (s.confirming.Some? ==> 0 < s.confirming.value.balance)
    && (s.withdrawHalted ==> s.pending == [] && s.matured == [] && s.confirming.None?)
    && s.monitoredAt <= s.newBlocks
  }

  /** newBlock: the block number becomes `n`, and the per-block checks may run again. */
  function NewBlockStep(s: Snapshot, n: nat): (r: Snapshot)
    ensures r.blockNumber == n && r.newBlocks == s.newBlocks + 1
    ensures r.(blockNumber := s.blockNumber, newBlocks := s.newBlocks) == s
  {
    s.(blockNumber := n, newBlocks := s.newBlocks + 1)
  }

  /**
   * An action on the action stream, emitted here or by another epic: a deposit success updates
   * the latest known balance, and a plan success marked confirmed starts a withdraw wait unless
   * the withdraw epic has stopped.
   */
  function ObserveStep(s: Snapshot, a: Action): (r: Snapshot)
    ensures r.(udcBalance := s.udcBalance, pending := s.pending) == s
    ensures r.udcBalance == (if a.DepositSuccess? then a.balance else s.udcBalance)
    ensures r.pending != s.pending <==> a.PlanSuccess? && a.confirmed == Some(true) && !s.withdrawHalted
    ensures r.pending != s.pending ==> r.pending == s.pending + [PendingWithdraw(a.block, a.planMeta)]
  {
    s.(udcBalance := if a.DepositSuccess? then a.balance else s.udcBalance,
       pending := if a.PlanSuccess? && a.confirmed == Some(true) && !s.withdrawHalted
                  then s.pending + [PendingWithdraw(a.block, a.planMeta)] else s.pending)
  }

  /** The balance check, at startup and at most once per newBlock after that. */
  function MonitorBalanceStep(s: Snapshot, read: Result<(nat, nat)>): (r: Snapshot)
    ensures r.(monitoredAt := s.monitoredAt, balanceUpdates := s.balanceUpdates) == s
    ensures r.monitoredAt == s.newBlocks || r == s
    ensures r.balanceUpdates != s.balanceUpdates
            <==> s.monitoredAt < s.newBlocks && MonitorStep(s.udcBalance, read).Some?
    ensures r.balanceUpdates != s.balanceUpdates
            ==> r.balanceUpdates == s.balanceUpdates + [MonitorStep(s.udcBalance, read).value]
  {
    if s.monitoredAt < s.newBlocks
    then s.(monitoredAt := s.newBlocks, balanceUpdates := s.balanceUpdates + OptionToSeq(MonitorStep(s.udcBalance, read)))
    else s
  }

  /** A deposit request joins the back of the queue. */
  function RequestDepositStep(s: Snapshot, req: DepositRequest): (r: Snapshot)
    ensures r.(deposits := s.deposits) == s
    ensures r.deposits == s.deposits + [req]
  {
    s.(deposits := s.deposits + [req])
  }

  /** The oldest deposit request, run to its end. */
  function ProcessDepositStep(s: Snapshot, run: DepositRun): (r: Snapshot)
    ensures r.(deposits := s.deposits, depositOut := s.depositOut, calls := s.calls) == s
    ensures s.deposits == [] ==> r == s
    ensures s.deposits != [] ==> && r.deposits == s.deposits[1..]
                                 && r.depositOut == s.depositOut + [DepositOutcome(s.deposits[0], run)]
                                 && r.calls == s.calls + DepositCalls(s.deposits[0], run)
  {
    if s.deposits == [] then s
    else
      var req := s.deposits[0];
      s.(deposits := s.deposits[1..], depositOut := s.depositOut + [DepositOutcome(req, run)],
         calls := s.calls + DepositCalls(req, run))
  }

  /** A plan request joins the back of the queue. */
  function RequestPlanStep(s: Snapshot, meta: PlanMeta): (r: Snapshot)
    ensures r.(planRequests := s.planRequests) == s
    ensures r.planRequests == s.planRequests + [meta]
  {
    s.(planRequests := s.planRequests + [meta])
  }

  /** The oldest plan request, once no earlier one is polling. */
  function ProcessPlanRequestStep(s: Snapshot, balance: Result<nat>, tx: Result<TxInfo>, plan: Result<Plan>): (r: Snapshot)
    ensures r.(planRequests := s.planRequests, calls := s.calls, planOut := s.planOut, polling := s.polling) == s
    ensures s.polling.Some? || s.planRequests == [] ==> r == s
    ensures s.polling.None? && s.planRequests != []
            ==> && r.planRequests == s.planRequests[1..]
                && r.calls == s.calls + PlanCalls(s.planRequests[0], balance)
                && r.planOut == s.planOut + PlanRequestOutput(s.planRequests[0], balance, tx, plan)
                && (r.polling.Some? <==> r.planOut == s.planOut)
                && (r.polling.Some? ==> tx.Ok? && r.polling.value == PlanPoll(s.planRequests[0], tx.value, s.newBlocks))
  {
    if s.polling.Some? || s.planRequests == [] then s
    else
      var meta := s.planRequests[0];
      var emitted := PlanRequestOutput(meta, balance, tx, plan);
      s.(planRequests := s.planRequests[1..], calls := s.calls + PlanCalls(meta, balance),
         planOut := s.planOut + emitted,
         polling := if emitted == [] then Some(PlanPoll(meta, tx.value, s.newBlocks)) else None)
  }

  /** The plan poll, once per newBlock while a plan request waits. */
  function PollPlanStep(s: Snapshot, plan: Result<Plan>): (r: Snapshot)
    ensures r.(planOut := s.planOut, polling := s.polling) == s
    ensures s.polling.None? || s.newBlocks <= s.polling.value.polledAt ==> r == s
    ensures s.polling.Some? && s.polling.value.polledAt < s.newBlocks
            ==> && r.planOut == s.planOut + OptionToSeq(PlanPollOutcome(s.polling.value.meta, s.polling.value.tx, plan))
                && (r.polling.Some? <==> r.planOut == s.planOut)
                && (r.polling.Some? ==> r.polling.value == s.polling.value.(polledAt := s.newBlocks))
  {
    if s.polling.None? || s.newBlocks <= s.polling.value.polledAt then s
    else
      var p := s.polling.value;
      var r := PlanPollOutcome(p.meta, p.tx, plan);
      s.(planOut := s.planOut + OptionToSeq(r), polling := if r.None? then Some(p.(polledAt := s.newBlocks)) else None)
  }

  /** The startup check of an existing plan; it runs once. */
  function CheckWithdrawPlannedStep(s: Snapshot, plan: Result<Plan>): (r: Snapshot)
    ensures r.(replayed := s.replayed, replayOut := s.replayOut) == s
    ensures r.replayed
    ensures r.replayOut == if s.replayed then s.replayOut else s.replayOut + OptionToSeq(StartupReplay(plan))
  {
    if s.replayed then s else s.(replayed := true, replayOut := s.replayOut + OptionToSeq(StartupReplay(plan)))
  }

  /**
   * The pending plan `i`, once the block number is past its block: its balance is read and it
   * queues for the withdraw. A failed read stops the withdraw epic and drops all it holds.
   */
  function AwaitMaturityStep(s: Snapshot, i: nat, balance: Result<nat>): (r: Snapshot)
    ensures r.(pending := s.pending, matured := s.matured, withdrawHalted := s.withdrawHalted, confirming := s.confirming) == s
    ensures s.withdrawHalted || |s.pending| <= i || s.blockNumber <= s.pending[i].block ==> r == s
    ensures !s.withdrawHalted && i < |s.pending| && s.pending[i].block < s.blockNumber && balance.Ok?
            ==> && r.pending == s.pending[..i] + s.pending[i + 1..]
                && r.matured == s.matured + [MaturedWithdraw(s.pending[i].meta, balance.value)]
                && r.confirming == s.confirming && !r.withdrawHalted
    ensures !s.withdrawHalted && i < |s.pending| && s.pending[i].block < s.blockNumber && balance.Err?
            ==> r.withdrawHalted && r.pending == [] && r.matured == [] && r.confirming.None?
  {
    if s.withdrawHalted || |s.pending| <= i || s.blockNumber <= s.pending[i].block then s
    else if balance.Ok? then
      s.(pending := s.pending[..i] + s.pending[i + 1..],
         matured := s.matured + [MaturedWithdraw(s.pending[i].meta, balance.value)])
    else s.(withdrawHalted := true, pending := [], matured := [], confirming := None)
  }

  /** The oldest matured plan, once no withdraw is confirming. */
  function StartWithdrawStep(s: Snapshot, tx: Result<TxInfo>, balance: Result<nat>): (r: Snapshot)
    ensures r.(matured := s.matured, calls := s.calls, withdrawOut := s.withdrawOut, confirming := s.confirming) == s
    ensures s.confirming.Some? || s.matured == [] ==> r == s
    ensures s.confirming.None? && s.matured != []
            ==> && r.matured == s.matured[1..]
                && r.calls == s.calls + WithdrawCalls(s.matured[0])
                && r.withdrawOut == s.withdrawOut + WithdrawOutput(s.matured[0], tx, balance)
                && (r.confirming.Some? <==> r.withdrawOut == s.withdrawOut)
                && (r.confirming.Some?
                    ==> tx.Ok? && r.confirming.value == WithdrawWait(s.matured[0].meta, s.matured[0].balance, tx.value, s.blockNumber))
  {
    if s.confirming.Some? || s.matured == [] then s
    else
      var w := s.matured[0];
      var emitted := WithdrawOutput(w, tx, balance);
      s.(matured := s.matured[1..], calls := s.calls + WithdrawCalls(w), withdrawOut := s.withdrawOut + emitted,
         confirming := if emitted == [] then Some(WithdrawWait(w.meta, w.balance, tx.value, s.blockNumber)) else None)
  }

  /** The balance re-read of a confirming withdraw, once per distinct block number. */
  function ConfirmWithdrawStep(s: Snapshot, balance: Result<nat>): (r: Snapshot)
    ensures r.(withdrawOut := s.withdrawOut, confirming := s.confirming) == s
    ensures s.confirming.None? || s.confirming.value.checkedAt == s.blockNumber ==> r == s
    ensures s.confirming.Some? && s.confirming.value.checkedAt != s.blockNumber
            ==> && r.withdrawOut == s.withdrawOut + OptionToSeq(WithdrawConfirmation(s.confirming.value.meta,
                                                          s.confirming.value.balance, s.confirming.value.tx, balance))
                && (r.confirming.Some? <==> r.withdrawOut == s.withdrawOut)
                && (r.confirming.Some? ==> r.confirming.value == s.confirming.value.(checkedAt := s.blockNumber))
  {
    if s.confirming.None? || s.confirming.value.checkedAt == s.blockNumber then s
    else
      var c := s.confirming.value;
      var r := WithdrawConfirmation(c.meta, c.balance, c.tx, balance);
      s.(withdrawOut := s.withdrawOut + OptionToSeq(r), confirming := if r.None? then Some(c.(checkedAt := s.blockNumber)) else None)
  }

  // ---------------------------------------------------------------------------------------------
  // Every step keeps the invariant

  lemma InitialInv(blockNumber: nat, udcBalance: nat)
    ensures Inv(Initial(blockNumber, udcBalance), [])
  {
  }

  lemma NewBlockKeepsInv(s: Snapshot, arrivals: seq<DepositMeta>, n: nat)
    requires Inv(s, arrivals)
    ensures Inv(NewBlockStep(s, n), arrivals)
  {
  }

  lemma ObserveKeepsInv(s: Snapshot, arrivals: seq<DepositMeta>, a: Action)
    requires Inv(s, arrivals)
    ensures Inv(ObserveStep(s, a), arrivals)
  {
  }

  lemma MonitorBalanceKeepsInv(s: Snapshot, arrivals: seq<DepositMeta>, read: Result<(nat, nat)>)
    requires Inv(s, arrivals)
    ensures Inv(MonitorBalanceStep(s, read), arrivals)
  {
  }

  /** A new request extends the arrivals by its meta. */
  lemma RequestDepositKeepsInv(s: Snapshot, arrivals: seq<DepositMeta>, req: DepositRequest)
    requires Inv(s, arrivals)
    ensures Inv(RequestDepositStep(s, req), arrivals + [req.meta])
  {
    RequestMetasAppend(s.deposits, req);
  }

  lemma ProcessDepositKeepsInv(s: Snapshot, arrivals: seq<DepositMeta>, run: DepositRun)
    requires Inv(s, arrivals)
    ensures Inv(ProcessDepositStep(s, run), arrivals)
  {
    if s.deposits != [] {
      var o := DepositOutcome(s.deposits[0], run);
      EmitDeposit(s.depositOut, s.deposits, o, arrivals);
    }
  }

  lemma RequestPlanKeepsInv(s: Snapshot, arrivals: seq<DepositMeta>, meta: PlanMeta)
    requires Inv(s, arrivals)
    ensures Inv(RequestPlanStep(s, meta), arrivals)
  {
  }

  lemma ProcessPlanRequestKeepsInv(s: Snapshot, arrivals: seq<DepositMeta>, balance: Result<nat>, tx: Result<TxInfo>, plan: Result<Plan>)
    requires Inv(s, arrivals)
    ensures Inv(ProcessPlanRequestStep(s, balance, tx, plan), arrivals)
  {
  }

  lemma PollPlanKeepsInv(s: Snapshot, arrivals: seq<DepositMeta>, plan: Result<Plan>)
    requires Inv(s, arrivals)
    ensures Inv(PollPlanStep(s, plan), arrivals)
  {
  }

  lemma CheckWithdrawPlannedKeepsInv(s: Snapshot, arrivals: seq<DepositMeta>, plan: Result<Plan>)
    requires Inv(s, arrivals)
    ensures Inv(CheckWithdrawPlannedStep(s, plan), arrivals)
  {
  }

  lemma AwaitMaturityKeepsInv(s: Snapshot, arrivals: seq<DepositMeta>, i: nat, balance: Result<nat>)
    requires Inv(s, arrivals)
    ensures Inv(AwaitMaturityStep(s, i, balance), arrivals)
  {
  }

  lemma StartWithdrawKeepsInv(s: Snapshot, arrivals: seq<DepositMeta>, tx: Result<TxInfo>, balance: Result<nat>)
    requires Inv(s, arrivals)
    ensures Inv(StartWithdrawStep(s, tx, balance), arrivals)
  {
    if s.confirming.None? && s.matured != [] {
      StartWithdrawTaken(s, tx, balance);
      var w := s.matured[0];
      PositiveWithdrawalsAppend(s.withdrawOut, WithdrawOutput(w, tx, balance));
      PositivePlanCallsAppend(s.calls, WithdrawCalls(w));
    }
  }

  lemma ConfirmWithdrawKeepsInv(s: Snapshot, arrivals: seq<DepositMeta>, balance: Result<nat>)
    requires Inv(s, arrivals)
    ensures Inv(ConfirmWithdrawStep(s, balance), arrivals)
  {
    if s.confirming.Some? && s.confirming.value.checkedAt != s.blockNumber {
      var c := s.confirming.value;
      var emitted := OptionToSeq(WithdrawConfirmation(c.meta, c.balance, c.tx, balance));
      assert emitted == [] || emitted == [emitted[0]];
    }
  }

  // ---------------------------------------------------------------------------------------------
  // What the steps promise

  /** Deposit requests are resolved in arrival order: the next resolution is the oldest unresolved arrival. */
  lemma NextResolutionIsOldest(s: Snapshot, arrivals: seq<DepositMeta>, run: DepositRun)
    requires Inv(s, arrivals) && s.deposits != []
    ensures |DepositResolutions(s.depositOut)| < |arrivals|
    ensures ProcessDepositStep(s, run).depositOut == s.depositOut + [DepositOutcome(s.deposits[0], run)]
    ensures DepositOutcome(s.deposits[0], run).depositMeta == arrivals[|DepositResolutions(s.depositOut)|]
  {
    assert RequestMetas(s.deposits) == [s.deposits[0].meta] + RequestMetas(s.deposits[1..]);
    assert arrivals[|DepositResolutions(s.depositOut)|] == RequestMetas(s.deposits)[0];
  }

  /** The deposit transaction is sent exactly for a request that passes the outdated-deposit check. */
  lemma DepositSentOnlyWhenCurrent(s: Snapshot, run: DepositRun)
    requires s.deposits != []
    ensures ProcessDepositStep(s, run).calls != s.calls <==> DepositSent(s.deposits[0], run)
    ensures DepositSent(s.deposits[0], run)
            ==> ProcessDepositStep(s, run).calls == s.calls + [Deposit(s.deposits[0].meta.totalDeposit)]
  {
    if !DepositSent(s.deposits[0], run) {
      assert s.calls + [] == s.calls;
    }
  }

  /** At most one balance check per newBlock: a second check in the same block changes nothing. */
  lemma MonitorOncePerBlock(s: Snapshot, first: Result<(nat, nat)>, second: Result<(nat, nat)>)
    ensures MonitorBalanceStep(MonitorBalanceStep(s, first), second) == MonitorBalanceStep(s, first)
  {
  }

  /** Whatever the last check read, failed or not, the next newBlock brings a new check. */
  lemma MonitorResumesAfterNewBlock(s: Snapshot, arrivals: seq<DepositMeta>, n: nat, read: Result<(nat, nat)>)
    requires Inv(s, arrivals)
    ensures MonitorBalanceStep(NewBlockStep(s, n), read).balanceUpdates
            == s.balanceUpdates + OptionToSeq(MonitorStep(s.udcBalance, read))
  {
  }

  /** At most one plan poll per newBlock: a second poll in the same block changes nothing. */
  lemma PollOncePerBlock(s: Snapshot, first: Result<Plan>, second: Result<Plan>)
    ensures PollPlanStep(PollPlanStep(s, first), second) == PollPlanStep(s, first)
  {
  }

  /** While a plan request polls, each newBlock brings one more read of the plan record. */
  lemma PollResumesAfterNewBlock(s: Snapshot, arrivals: seq<DepositMeta>, n: nat, plan: Result<Plan>)
    requires Inv(s, arrivals) && s.polling.Some?
    ensures PollPlanStep(NewBlockStep(s, n), plan).planOut
            == s.planOut + OptionToSeq(PlanPollOutcome(s.polling.value.meta, s.polling.value.tx, plan))
  {
  }

  /** At most one balance re-read per block number while a withdraw is confirming. */
  lemma ConfirmOncePerBlock(s: Snapshot, first: Result<nat>, second: Result<nat>)
    ensures ConfirmWithdrawStep(ConfirmWithdrawStep(s, first), second) == ConfirmWithdrawStep(s, first)
  {
  }

  /** While a withdraw is confirming, a block number it has not checked brings one more read. */
  lemma ConfirmResumesOnNewBlockNumber(s: Snapshot, n: nat, balance: Result<nat>)
    requires s.confirming.Some? && n != s.confirming.value.checkedAt
    ensures ConfirmWithdrawStep(NewBlockStep(s, n), balance).withdrawOut
            == s.withdrawOut + OptionToSeq(WithdrawConfirmation(s.confirming.value.meta, s.confirming.value.balance,
                                                                s.confirming.value.tx, balance))
  {
  }

  /**
   * A plan request that is sent and goes on polling reports, at the first poll after the next
   * newBlock that finds enough planned, the plan's withdraw block with the plan transaction and
   * the request's meta.
   */
  lemma PlanReportedAfterPoll(s: Snapshot, balance: Result<nat>, tx: Result<TxInfo>, first: Result<Plan>, n: nat, p: Plan)
    requires s.polling.None? && s.planRequests != []
    requires ProcessPlanRequestStep(s, balance, tx, first).planOut == s.planOut
    requires s.planRequests[0].amount <= p.amount
    ensures tx.Ok?
    ensures PollPlanStep(NewBlockStep(ProcessPlanRequestStep(s, balance, tx, first), n), Ok(p)).planOut
            == s.planOut + [PlanSuccess(p.withdrawBlock, Some(tx.value), None, s.planRequests[0])]
  {
    var t := ProcessPlanRequestStep(s, balance, tx, first);
    assert t.polling == Some(PlanPoll(s.planRequests[0], tx.value, s.newBlocks));
  }

  /**
   * A withdraw that is sent and goes on waiting reports, at the first re-read on a new block
   * number that finds the balance lower, the drop from the pre-withdraw balance, with the
   * withdraw transaction and the plan's meta.
   */
  lemma WithdrawReportedAfterDrop(s: Snapshot, tx: Result<TxInfo>, first: Result<nat>, n: nat, after: nat)
    requires s.confirming.None? && s.matured != []
    requires StartWithdrawStep(s, tx, first).withdrawOut == s.withdrawOut
    requires n != s.blockNumber && after < s.matured[0].balance
    ensures tx.Ok?
    ensures ConfirmWithdrawStep(NewBlockStep(StartWithdrawStep(s, tx, first), n), Ok(after)).withdrawOut
            == s.withdrawOut + [WithdrawSuccess(s.matured[0].balance - after, tx.value, s.matured[0].meta)]
  {
    var t := StartWithdrawStep(s, tx, first);
    assert t.confirming == Some(WithdrawWait(s.matured[0].meta, s.matured[0].balance, tx.value, s.blockNumber));
  }

  /** The startup plan check runs once. */
  lemma ReplayOnce(s: Snapshot, first: Result<Plan>, second: Result<Plan>)
    ensures CheckWithdrawPlannedStep(CheckWithdrawPlannedStep(s, first), second) == CheckWithdrawPlannedStep(s, first)
    ensures |CheckWithdrawPlannedStep(s, first).replayOut| <= |s.replayOut| + 1
  {
  }

  /** While a plan request polls, the next one waits. */
  lemma PlanRequestsWaitForPoll(s: Snapshot, balance: Result<nat>, tx: Result<TxInfo>, plan: Result<Plan>)
    requires s.polling.Some?
    ensures ProcessPlanRequestStep(s, balance, tx, plan) == s
  {
  }

  /** The plan transaction is sent only for an amount that is positive and within the balance. */
  lemma PlanSentOnlyWhenValid(s: Snapshot, balance: Result<nat>, tx: Result<TxInfo>, plan: Result<Plan>)
    ensures ProcessPlanRequestStep(s, balance, tx, plan).calls != s.calls
            ==> && s.polling.None? && s.planRequests != [] && balance.Ok?
                && 0 < s.planRequests[0].amount <= balance.value
                && ProcessPlanRequestStep(s, balance, tx, plan).calls == s.calls + [PlanWithdraw(s.planRequests[0].amount)]
  {
    if s.polling.None? && s.planRequests != [] && PlanCalls(s.planRequests[0], balance) == [] {
      assert s.calls + [] == s.calls;
    }
  }

  /** A plan goes on to the withdraw only once the block number is strictly past its block. */
  lemma MaturesOnlyAfterBlock(s: Snapshot, i: nat, balance: Result<nat>)
    ensures AwaitMaturityStep(s, i, balance) != s
            ==> !s.withdrawHalted && i < |s.pending| && s.pending[i].block < s.blockNumber
  {
  }

  /** `withdraw` is called only for the oldest matured plan, with its amount, and only on a non-zero balance. */
  lemma WithdrawCalledOnlyWithBalance(s: Snapshot, tx: Result<TxInfo>, balance: Result<nat>)
    ensures StartWithdrawStep(s, tx, balance).calls != s.calls
            ==> && s.confirming.None? && s.matured != [] && s.matured[0].balance > 0
                && StartWithdrawStep(s, tx, balance).calls == s.calls + [Withdraw(s.matured[0].meta.amount)]
  {
    if s.confirming.None? && s.matured != [] && s.matured[0].balance == 0 {
      assert s.calls + [] == s.calls;
    }
  }

  /** Once the withdraw epic has stopped, it holds nothing, withdraws nothing and reports nothing. */
  lemma HaltedStaysQuiet(s: Snapshot, arrivals: seq<DepositMeta>, i: nat, tx: Result<TxInfo>, balance: Result<nat>, a: Action)
    requires Inv(s, arrivals) && s.withdrawHalted
    ensures AwaitMaturityStep(s, i, balance) == s
    ensures StartWithdrawStep(s, tx, balance) == s
    ensures ConfirmWithdrawStep(s, balance) == s
    ensures ObserveStep(s, a).pending == []
  {
  }

  // ---------------------------------------------------------------------------------------------
  // The client

  /** The UDC epics' state between events, with one method per event they react to. */
  class UdcClient {
    var blockNumber: nat          // state.blockNumber
    var newBlocks: nat            // newBlock actions seen so far
    var udcBalance: nat           // the latest known UDC balance
    var calls: seq<ChainCall>
    var monitoredAt: int
    var balanceUpdates: seq<Action>
    var deposits: seq<DepositRequest>
    var depositOut: seq<Action>
    var planRequests: seq<PlanMeta>
    var polling: Option<PlanPoll>
    var planOut: seq<Action>
    var replayed: bool
    var replayOut: seq<Action>
    var pending: seq<PendingWithdraw>
    var withdrawHalted: bool      // the withdraw epic stopped on an uncaught error
    var matured: seq<MaturedWithdraw>
    var confirming: Option<WithdrawWait>
    var withdrawOut: seq<Action>
    ghost var depositArrivals: seq<DepositMeta>

    function State(): Snapshot
      reads this
    {
      Snapshot(blockNumber, newBlocks, udcBalance, calls, monitoredAt, balanceUpdates, deposits, depositOut,
               planRequests, polling, planOut, replayed, replayOut, pending, withdrawHalted, matured,
               confirming, withdrawOut)
    }

    ghost predicate Valid()
      reads this
    {
      Inv(State(), depositArrivals)
    }

    constructor (blockNumber: nat, udcBalance: nat)
      ensures Valid() && depositArrivals == []
      ensures State() == Initial(blockNumber, udcBalance)
    {
      this.blockNumber := blockNumber;
      this.udcBalance := udcBalance;
      newBlocks := 0;
      calls := [];
      monitoredAt := -1;
      balanceUpdates := [];
      deposits := [];
      depositOut := [];
      planRequests := [];
      polling := None;
      planOut := [];
      replayed := false;
      replayOut := [];
      pending := [];
      withdrawHalted := false;
      matured := [];
      confirming := None;
      withdrawOut := [];
      depositArrivals := [];
      InitialInv(blockNumber, udcBalance);
    }

    method NewBlock(n: nat)
      requires Valid()
      modifies this
      ensures Valid() && depositArrivals == old(depositArrivals)
      ensures State() == NewBlockStep(old(State()), n)
    {
      NewBlockKeepsInv(State(), depositArrivals, n);
      blockNumber := n;
      newBlocks := newBlocks + 1;
      assert State() == NewBlockStep(old(State()), n);
      InvTransfer(State(), NewBlockStep(old(State()), n), depositArrivals);
    }

    method Observe(a: Action)
      requires Valid()
      modifies this
      ensures Valid() && depositArrivals == old(depositArrivals)
      ensures State() == ObserveStep(old(State()), a)
    {
      ObserveKeepsInv(State(), depositArrivals, a);
      if a.DepositSuccess? {
        udcBalance := a.balance;
      }
      if a.PlanSuccess? && a.confirmed == Some(true) && !withdrawHalted {
        pending := pending + [PendingWithdraw(a.block, a.planMeta)];
      }
      assert State() == ObserveStep(old(State()), a);
      InvTransfer(State(), ObserveStep(old(State()), a), depositArrivals);
    }

    method MonitorBalance(read: Result<(nat, nat)>)
      requires Valid()
      modifies this
      ensures Valid() && depositArrivals == old(depositArrivals)
      ensures State() == MonitorBalanceStep(old(State()), read)
    {
      MonitorBalanceKeepsInv(State(), depositArrivals, read);
      if monitoredAt < newBlocks {
        monitoredAt := newBlocks;
        balanceUpdates := balanceUpdates + OptionToSeq(MonitorStep(udcBalance, read));
      }
      assert State() == MonitorBalanceStep(old(State()), read);
      InvTransfer(State(), MonitorBalanceStep(old(State()), read), depositArrivals);
    }

    method RequestDeposit(req: DepositRequest)
      requires Valid()
      modifies this
      ensures Valid() && depositArrivals == old(depositArrivals) + [req.meta]
      ensures State() == RequestDepositStep(old(State()), req)
    {
      RequestDepositKeepsInv(State(), depositArrivals, req);
      deposits := deposits + [req];
      depositArrivals := depositArrivals + [req.meta];
      assert State() == RequestDepositStep(old(State()), req);
      InvTransfer(State(), RequestDepositStep(old(State()), req), depositArrivals);
    }

    method ProcessDeposit(run: DepositRun)
      requires Valid()
      modifies this
      ensures Valid() && depositArrivals == old(depositArrivals)
      ensures State() == ProcessDepositStep(old(State()), run)
    {
      ProcessDepositKeepsInv(State(), depositArrivals, run);
      if deposits != [] {
        var req := deposits[0];
        calls := calls + DepositCalls(req, run);
        depositOut := depositOut + [DepositOutcome(req, run)];
        deposits := deposits[1..];
      }
      assert State() == ProcessDepositStep(old(State()), run);
      InvTransfer(State(), ProcessDepositStep(old(State()), run), depositArrivals);
    }

    method RequestPlanWithdraw(meta: PlanMeta)
      requires Valid()
      modifies this
      ensures Valid() && depositArrivals == old(depositArrivals)
      ensures State() == RequestPlanStep(old(State()), meta)
    {
      RequestPlanKeepsInv(State(), depositArrivals, meta);
      planRequests := planRequests + [meta];
      assert State() == RequestPlanStep(old(State()), meta);
      InvTransfer(State(), RequestPlanStep(old(State()), meta), depositArrivals);
    }

    method ProcessPlanRequest(balance: Result<nat>, tx: Result<TxInfo>, plan: Result<Plan>)
      requires Valid()
      modifies this
      ensures Valid() && depositArrivals == old(depositArrivals)
      ensures State() == ProcessPlanRequestStep(old(State()), balance, tx, plan)
    {
      ProcessPlanRequestKeepsInv(State(), depositArrivals, balance, tx, plan);
      if polling.None? && planRequests != [] {
        ProcessPlanRequestTaken(State(), balance, tx, plan);
        var meta := planRequests[0];
        var emitted := PlanRequestOutput(meta, balance, tx, plan);
        planRequests := planRequests[1..];
        calls := calls + PlanCalls(meta, balance);
        planOut := planOut + emitted;
        if emitted == [] {
          polling := Some(PlanPoll(meta, tx.value, newBlocks));
        }
      }
      assert State() == ProcessPlanRequestStep(old(State()), balance, tx, plan);
      InvTransfer(State(), ProcessPlanRequestStep(old(State()), balance, tx, plan), depositArrivals);
    }

    method PollPlan(plan: Result<Plan>)
      requires Valid()
      modifies this
      ensures Valid() && depositArrivals == old(depositArrivals)
      ensures State() == PollPlanStep(old(State()), plan)
    {
      PollPlanKeepsInv(State(), depositArrivals, plan);
      if polling.Some? && polling.value.polledAt < newBlocks {
        var p := polling.value;
        var r := PlanPollOutcome(p.meta, p.tx, plan);
        planOut := planOut + OptionToSeq(r);
        polling := if r.None? then Some(p.(polledAt := newBlocks)) else None;
      }
      assert State() == PollPlanStep(old(State()), plan);
      InvTransfer(State(), PollPlanStep(old(State()), plan), depositArrivals);
    }

    method CheckWithdrawPlanned(plan: Result<Plan>)
      requires Valid()
      modifies this
      ensures Valid() && depositArrivals == old(depositArrivals)
      ensures State() == CheckWithdrawPlannedStep(old(State()), plan)
    {
      CheckWithdrawPlannedKeepsInv(State(), depositArrivals, plan);
      if !replayed {
        replayed := true;
        replayOut := replayOut + OptionToSeq(StartupReplay(plan));
      }
      assert State() == CheckWithdrawPlannedStep(old(State()), plan);
      InvTransfer(State(), CheckWithdrawPlannedStep(old(State()), plan), depositArrivals);
    }

    method AwaitMaturity(i: nat, balance: Result<nat>)
      requires Valid()
      modifies this
      ensures Valid() && depositArrivals == old(depositArrivals)
      ensures State() == AwaitMaturityStep(old(State()), i, balance)
    {
      AwaitMaturityKeepsInv(State(), depositArrivals, i, balance);
      if !withdrawHalted && i < |pending| && pending[i].block < blockNumber {
        if balance.Ok? {
          matured := matured + [MaturedWithdraw(pending[i].meta, balance.value)];
          pending := pending[..i] + pending[i + 1..];
        } else {
          withdrawHalted := true;
          pending := [];
          matured := [];
          confirming := None;
        }
      }
      assert State() == AwaitMaturityStep(old(State()), i, balance);
      InvTransfer(State(), AwaitMaturityStep(old(State()), i, balance), depositArrivals);
    }

    method StartWithdraw(tx: Result<TxInfo>, balance: Result<nat>)
      requires Valid()
      modifies this
      ensures Valid() && depositArrivals == old(depositArrivals)
      ensures State() == StartWithdrawStep(old(State()), tx, balance)
    {
      StartWithdrawKeepsInv(State(), depositArrivals, tx, balance);
      if confirming.None? && matured != [] {
        StartWithdrawTaken(State(), tx, balance);
        var w := matured[0];
        var emitted := WithdrawOutput(w, tx, balance);
        matured := matured[1..];
        calls := calls + WithdrawCalls(w);
        withdrawOut := withdrawOut + emitted;
        if emitted == [] {
          confirming := Some(WithdrawWait(w.meta, w.balance, tx.value, blockNumber));
        }
      }
      assert State() == StartWithdrawStep(old(State()), tx, balance);
      InvTransfer(State(), StartWithdrawStep(old(State()), tx, balance), depositArrivals);
    }

    method ConfirmWithdraw(balance: Result<nat>)
      requires Valid()
      modifies this
      ensures Valid() && depositArrivals == old(depositArrivals)
      ensures State() == ConfirmWithdrawStep(old(State()), balance)
    {
      ConfirmWithdrawKeepsInv(State(), depositArrivals, balance);
      if confirming.Some? && confirming.value.checkedAt != blockNumber {
        var c := confirming.value;
        var r := WithdrawConfirmation(c.meta, c.balance, c.tx, balance);
        withdrawOut := withdrawOut + OptionToSeq(r);
        confirming := if r.None? then Some(c.(checkedAt := blockNumber)) else None;
      }
      assert State() == ConfirmWithdrawStep(old(State()), balance);
      InvTransfer(State(), ConfirmWithdrawStep(old(State()), balance), depositArrivals);
    }
  }

  // ---------------------------------------------------------------------------------------------
  // Proof aids
  //
  // The lemmas below are not properties of the system. Each one restates a definition, or one
  // step of a loop, in the shape the solver needs where it is called.

  /**
   * The invariant, carried over to a snapshot known to be equal. It states nothing new; the
   * client's methods call it so that the solver meets `Inv` on their own state directly.
   */
  lemma InvTransfer(s: Snapshot, t: Snapshot, arrivals: seq<DepositMeta>)
    requires s == t && Inv(t, arrivals)
    ensures Inv(s, arrivals)
  {
  }

  /** The new snapshot when a plan request is taken up, written out field by field. */
  lemma ProcessPlanRequestTaken(s: Snapshot, balance: Result<nat>, tx: Result<TxInfo>, plan: Result<Plan>)
    requires s.polling.None? && s.planRequests != []
    ensures var emitted := PlanRequestOutput(s.planRequests[0], balance, tx, plan);
            ProcessPlanRequestStep(s, balance, tx, plan)
            == s.(planRequests := s.planRequests[1..], calls := s.calls + PlanCalls(s.planRequests[0], balance),
                  planOut := s.planOut + emitted,
                  polling := if emitted == [] then Some(PlanPoll(s.planRequests[0], tx.value, s.newBlocks)) else None)
  {
  }

  /** The new snapshot when a matured plan is taken up, written out field by field. */
  lemma StartWithdrawTaken(s: Snapshot, tx: Result<TxInfo>, balance: Result<nat>)
    requires s.confirming.None? && s.matured != []
    ensures var emitted := WithdrawOutput(s.matured[0], tx, balance);
            StartWithdrawStep(s, tx, balance)
            == s.(matured := s.matured[1..], calls := s.calls + WithdrawCalls(s.matured[0]),
                  withdrawOut := s.withdrawOut + emitted,
                  confirming := if emitted == [] then Some(WithdrawWait(s.matured[0].meta, s.matured[0].balance, tx.value, s.blockNumber)) else None)
  {
  }
}
