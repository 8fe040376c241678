/**
 * The rules an account applies to a withdrawal or a deposit
 * (bank/accounts.py, Account.withdraw and Account.deposit), stated on the
 * part of an account those two operations read, and what follows from them
 * for any sequence of operations.
 */
module Transactions {

  /** The only status that lets money move. */
  const OPEN: string := "open"

  /** Every account is created with this per-transaction withdrawal cap. */
  const WITHDRAWAL_LIMIT: real := 5000.0

  /** The errors an account operation raises, or the bank finds on lookup. */
  datatype TxError =
    | AccountError(accountId: string, status: string)
    | ExceedsLimit(withdrawLimit: real)
    | InsufficientBalance(balance: real, amount: real)
    | KeyError(key: string)

  /** The dictionary returned on success: status True, the new balance, a timestamp. */
  datatype Receipt = Receipt(newBalance: real, transactionTime: int)

  /** What a call of withdraw or deposit does: return a receipt or raise. */
  datatype Attempt = Done(receipt: Receipt) | Raised(error: TxError)

  /** What withdraw and deposit read of an account. */
  datatype AccountState = AccountState(accountId: string, status: string, withdrawalLimit: real, balance: real)

  /** A result: the account afterwards, or the error raised. */
  datatype Result = Ok(after: AccountState) | Err(error: TxError)

  /** The balance stored for an opening balance: negative amounts become 0. */
  function OpeningBalance(opening: real): (b: real)
    ensures b >= 0.0
    ensures b == opening || (opening < 0.0 && b == 0.0)
    ensures b >= opening
  {
    if opening >= 0.0 then opening else 0.0
  }

  /**
   * Withdrawal: the status check comes first, then the limit, then the
   * balance; the first check that fails decides the error. Both bounds are
   * inclusive for the amount.
   */
  function Withdraw(s: AccountState, amount: real): (r: Result)
    ensures s.status != OPEN ==> r == Err(AccountError(s.accountId, s.status))
    ensures s.status == OPEN && amount > s.withdrawalLimit ==> r == Err(ExceedsLimit(s.withdrawalLimit))
    ensures s.status == OPEN && amount <= s.withdrawalLimit && amount > s.balance
            ==> r == Err(InsufficientBalance(s.balance, amount))
    ensures r.Ok? <==> s.status == OPEN && amount <= s.withdrawalLimit && amount <= s.balance
    ensures r.Ok? ==> r.after == s.(balance := s.balance - amount) && r.after.balance >= 0.0
  {
    if s.status != OPEN then Err(AccountError(s.accountId, s.status))
    else if amount > s.withdrawalLimit then Err(ExceedsLimit(s.withdrawalLimit))
    else if amount > s.balance then Err(InsufficientBalance(s.balance, amount))
    else Ok(s.(balance := s.balance - amount))
  }

  /** Deposit: only the status is checked; there is no upper bound. */
  function Deposit(s: AccountState, amount: real): (r: Result)
    ensures r.Ok? <==> s.status == OPEN
    ensures r.Err? ==> r.error == AccountError(s.accountId, s.status)
    ensures r.Ok? ==> r.after == s.(balance := s.balance + amount)
  {
    if s.status != OPEN then Err(AccountError(s.accountId, s.status))
    else Ok(s.(balance := s.balance + amount))
  }

  /** The value returned or raised by an account operation with result `r`. */
  function AttemptOf(r: Result, now: int): (a: Attempt)
    ensures a.Done? <==> r.Ok?
    ensures a.Done? ==> a.receipt.newBalance == r.after.balance && a.receipt.transactionTime == now
    ensures a.Raised? ==> a.error == r.error
  {
    match r
    case Ok(after) => Done(Receipt(after.balance, now))
    case Err(e) => Raised(e)
  }

  /** One call on an account. */
  datatype Op = DepositOp(amount: real) | WithdrawOp(amount: real)

  function Step(s: AccountState, op: Op): Result
  {
    match op
    case DepositOp(x) => Deposit(s, x)
    case WithdrawOp(x) => Withdraw(s, x)
  }

  /** The state after one call: a raising call leaves the account as it was. */
  function After(s: AccountState, op: Op): AccountState
  {
    match Step(s, op)
    case Ok(t) => t
    case Err(_) => s
  }

  /** The state after a sequence of calls, each one's error ignored. */
  function Run(s: AccountState, ops: seq<Op>): AccountState
    decreases |ops|
  {
    if ops == [] then s else Run(After(s, ops[0]), ops[1..])
  }

  /** Every call of the sequence returns a receipt. */
  predicate AllSucceed(s: AccountState, ops: seq<Op>)
    decreases |ops|
  {
    ops == [] || (Step(s, ops[0]).Ok? && AllSucceed(After(s, ops[0]), ops[1..]))
  }

  /** The sum of the deposits minus the sum of the withdrawals. */
  function Net(ops: seq<Op>): real
    decreases |ops|
  {
    if ops == [] then 0.0
    else (match ops[0] case DepositOp(x) => x case WithdrawOp(x) => -x) + Net(ops[1..])
  }

  predicate NonNegativeAmounts(ops: seq<Op>)
  {
    forall i :: 0 <= i < |ops| ==> ops[i].amount >= 0.0
  }

  /** Calls change only the balance: id, status and limit stay as they were. */
  lemma {:induction false} RunChangesOnlyBalance(s: AccountState, ops: seq<Op>)
    ensures Run(s, ops) == s.(balance := Run(s, ops).balance)
    decreases |ops|
  {
    if ops != [] {
      RunChangesOnlyBalance(After(s, ops[0]), ops[1..]);
    }
  }

  /**
   * After any sequence of successful calls the balance is the opening
   * balance plus the deposits minus the withdrawals.
   */
  lemma {:induction false} RunBalance(s: AccountState, ops: seq<Op>)
    requires AllSucceed(s, ops)
    ensures Run(s, ops).balance == s.balance + Net(ops)
    decreases |ops|
  {
    if ops != [] {
      RunBalance(After(s, ops[0]), ops[1..]);
    }
  }

  /** With non-negative amounts, no sequence of calls makes a non-negative balance negative. */
  lemma {:induction false} RunKeepsBalanceNonNegative(s: AccountState, ops: seq<Op>)
    requires s.balance >= 0.0
    requires NonNegativeAmounts(ops)
    ensures Run(s, ops).balance >= 0.0
    decreases |ops|
  {
    if ops != [] {
      assert ops[0].amount >= 0.0;
      assert NonNegativeAmounts(ops[1..]) by {
        forall i | 0 <= i < |ops[1..]| ensures ops[1..][i].amount >= 0.0 {
          assert ops[1..][i] == ops[i + 1];
        }
      }
      RunKeepsBalanceNonNegative(After(s, ops[0]), ops[1..]);
    }
  }

  /** An account that is not open ignores every call. */
  lemma {:induction false} RunNotOpenIsIdle(s: AccountState, ops: seq<Op>)
    requires s.status != OPEN
    ensures Run(s, ops) == s
    ensures ops != [] ==> !AllSucceed(s, ops)
    decreases |ops|
  {
    if ops != [] {
      assert After(s, ops[0]) == s;
      RunNotOpenIsIdle(s, ops[1..]);
    }
  }

  /**
   * A denied withdrawal is not a step at all; setting the status back to
   * open makes the same withdrawal succeed when it is within the limit and
   * the balance (the lock/unlock scenario).
   */
  lemma ReopenedWithdrawalSucceeds(s: AccountState, amount: real, locked: string)
    requires locked != OPEN
    requires amount <= s.withdrawalLimit && amount <= s.balance
    ensures Withdraw(s.(status := locked), amount) == Err(AccountError(s.accountId, locked))
    ensures After(s.(status := locked), WithdrawOp(amount)) == s.(status := locked)
    ensures Withdraw(s.(status := OPEN), amount) == Ok(s.(status := OPEN, balance := s.balance - amount))
  {
  }

  /**
   * The account scenarios of the tests: 1000 - 500 leaves 500, 1000 + 500
   * gives 1500, an over-limit amount reports the limit before the balance,
   * a locked account reports its status whatever the amount, and the
   * limit and the whole balance are themselves allowed.
   */
  lemma AccountScenarios()
    ensures Withdraw(AccountState("1", OPEN, WITHDRAWAL_LIMIT, 1000.0), 500.0).after.balance == 500.0
    ensures Deposit(AccountState("1", OPEN, WITHDRAWAL_LIMIT, 1000.0), 500.0).after.balance == 1500.0
    ensures Withdraw(AccountState("1", OPEN, WITHDRAWAL_LIMIT, 1000.0), 5001.0) == Err(ExceedsLimit(5000.0))
    ensures Withdraw(AccountState("1", OPEN, WITHDRAWAL_LIMIT, 1000.0), 1001.0) == Err(InsufficientBalance(1000.0, 1001.0))
    ensures Withdraw(AccountState("1", "locked", WITHDRAWAL_LIMIT, 1000.0), 9999.0) == Err(AccountError("1", "locked"))
    ensures Withdraw(AccountState("1", OPEN, WITHDRAWAL_LIMIT, 6000.0), 5000.0).Ok?
    ensures Withdraw(AccountState("1", OPEN, WITHDRAWAL_LIMIT, 1000.0), 1000.0).after.balance == 0.0
  {
  }
}
