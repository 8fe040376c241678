# bank_project in Dafny

A model of the banking object graph of `samroon2/bank_project`:

- accounts, with their withdrawal and deposit rules;
- the per-holder registry (`Accounts`) with its three id-keyed account maps and its issued cards;
- cards and how they link themselves in;
- account holders and how they register in the bank;
- the bank, which routes a card number to a holder's account, wraps the account's errors, and adds up every holder's total.

The modules are:

- `Transactions` (transactions.dfy). The rules of `Account.withdraw` and `Account.deposit` as functions on the part of an account they read. Also lemmas about any sequence of such calls.
- `CardNumbers` (card_numbers.dfy). Python's `str.split` and the routing key `card_number.split("|")[1].split("-")[0]`.
- `Options` (options.dfy). The `Option` type shared by `CardNumbers` and `Summary`.
- `Summary` (summary.dfy). The `accounts` summary line, with a reader showing that the three counts can be read back from it.
- `MapSums` (map_sums.dfy). Sums over the values of a finite map. They do not depend on the order of dictionary iteration.
- `Ledgers` (ledgers.dfy). The bank's accounts as a value, held in a "layout" from holder id to the holder's three maps. Defines the totals of a layout under a snapshot of balances. Defines the "exposure" of an account: the weight counted once for each registry entry that holds it.
- `Banking` (banking.dfy). The classes `Account`, `Accounts`, `CardTable`, `Card`, `AccountHolder` and `Bank`.
  - A dictionary the source updates in place is a `map` field that is reassigned.
  - A holder's `cards` and its registry's `issued_cards` are one dictionary, so that dictionary is an object of its own, `CardTable`.
  - The loops of `_checking_balance`, `_savings_balance`, `_credit_balance` and `bank_balance` are `while` loops proved against the ghost functions `TotalBalance` and `BankBalance`.

Amounts are `real`. A status is a string, and only `"open"` lets money move. Timestamps (`time.time()`) are a parameter `now`.

The account a card leads to need not sit in exactly one registry entry of the bank:

- an account replaced in its map by a later account with the same id is still reachable through its card, and then it counts nowhere;
- the account maps are plain public dictionaries, so one account object can be put in two entries.

For that reason the bank-level contracts say that an approved transaction moves `bank_balance` by the amount times the number of registry entries, over all registered holders, that hold the account (`Exposure`). `ExposureOfSoleAccount` shows that this is the amount itself when the account sits in exactly one entry.

In two places the code behaves differently from what a reader might expect. The model follows the code in both:

- An account, or a holder, with an id that is already present replaces the earlier entry. No "already exists" error is raised.
- A card number the routed holder does not have raises `KeyError` inside the `try`. It is returned as `{"status": False, "error": ...}`, not raised to the caller. Only an unknown holder id (`AccountNotExists`) and a card number without `|` (`IndexError`) reach the caller.

## Model

| member | source | states |
|---|---|---|
| Transactions.OpeningBalance | bank/accounts.py:38 | a negative opening balance is stored as 0, a non-negative one unchanged; the stored balance is never negative |
| Transactions.Withdraw | bank/accounts.py:44-62 | status first (`AccountError`), then the limit (`ExceedsLimit`), then the balance (`InsufficientBalance`); success exactly when open, amount ≤ limit and amount ≤ balance; on success only the balance changes, to old − amount, and it is not negative |
| Transactions.Deposit | bank/accounts.py:64-76 | success exactly when open; otherwise `AccountError` with the id and status; on success only the balance changes, to old + amount, with no upper bound |
| Transactions.AttemptOf | bank/accounts.py:57-62 | a success returns a receipt whose `new_balance` is the stored balance and whose time is `now`; a failure raises the rule's error |
| Transactions.RunChangesOnlyBalance | bank/accounts.py:44-76 | any sequence of withdrawals and deposits leaves id, status and limit as they were |
| Transactions.RunBalance | bank/accounts.py:57-71 | after a sequence of successful calls the balance is the opening balance plus deposits minus withdrawals |
| Transactions.RunKeepsBalanceNonNegative | bank/accounts.py:54-57 | with non-negative amounts no sequence of calls makes a non-negative balance negative |
| Transactions.RunNotOpenIsIdle | bank/accounts.py:50-70 | an account that is not open ignores every call, and no non-empty sequence of calls on it succeeds |
| Transactions.ReopenedWithdrawalSucceeds | tests/bank_test.py:96-108 | a locked account refuses a withdrawal and stays as it was; reopened, the same withdrawal within limit and balance succeeds |
| Transactions.AccountScenarios | tests/accounts_test.py:40-75 | 1000 − 500 = 500, 1000 + 500 = 1500; over-limit reports the limit even with too little balance; locked reports the status; the limit itself and the whole balance are allowed |
| CardNumbers.Split | bank/banks.py:43 | `str.split`: at least one piece, no piece contains the separator, every character of a piece comes from the string |
| CardNumbers.JoinSplit | bank/banks.py:43 | splitting loses nothing: joining the pieces with the separator gives the string back |
| CardNumbers.SplitSingle | bank/banks.py:43 | there is exactly one piece iff the separator does not occur, and then the piece is the whole string |
| CardNumbers.SplitAfterPrefix | bank/banks.py:43 | a separator-free prefix followed by the separator is the first piece, and the rest is split on its own |
| CardNumbers.RoutingKey | bank/banks.py:41-45 | no key iff the card number has no `|` (`[1]` raises); a key contains neither `|` nor `-` |
| CardNumbers.RoutingKeyOf | bank/banks.py:64 | the key of `prefix|holder-rest`, `prefix|holder|rest` or `prefix|holder` is `holder` |
| CardNumbers.RoutingExamples | tests/project_requirements_test.py:36-46 | `"40001|101-checking-1"` routes to `"101"`, and so does `"50001|101-savings-1"`, the number of a card holder `"202"` issued; `"40001"` has no key |
| Summary.ParseSummaryText | bank/accounts.py:216-227 | the summary line determines the three counts: reading it back gives exactly them |
| Summary.SummaryExample | tests/accounts_test.py:89 | one checking and one savings account give `"Accounts: Checking: 1, Savings: 1, Credit: 0"` |
| Banking.Catch | bank/banks.py:47-51 | `except Exception as e: return {"status": False, "error": e}`: approved iff the call returned, with its receipt; denied with the raised error otherwise |
| Banking.Account.constructor | bank/accounts.py:24-42 | every field as given, except the holder id, which is the account id as in the source; the balance is the clamped opening balance; no linked cards; limit 5000 |
| Banking.Account.Checking | bank/accounts.py:91-111 | type `"checking"`; the account enters its registry's checking map under its id, replacing any entry with that id, and the registry's total changes by the new balance minus the replaced one |
| Banking.Account.Savings | bank/accounts.py:127-149 | keeps the given type and the interest rate; enters the savings map under its id, replacing any entry with that id, with the same effect on the registry's total |
| Banking.Account.Withdraw | bank/accounts.py:44-62 | returns or raises what `Transactions.Withdraw` decides on the old state; the balance becomes old − amount on success and stays on failure |
| Banking.Account.Deposit | bank/accounts.py:64-76 | returns or raises what `Transactions.Deposit` decides; the balance becomes old + amount on success and stays on failure |
| Banking.SumBalances | bank/accounts.py:236-264 | the accumulator loop over one map returns the sum of its accounts' balances |
| Banking.Accounts.constructor | bank/accounts.py:201-207 | an empty registry: the three maps and a fresh issued-cards table are empty |
| Banking.CardTable.constructor | bank/accounts.py:207 | a new card table is empty |
| Banking.Accounts.CheckingBalance | bank/accounts.py:236-244 | `_checking_balance` is the sum of the checking accounts' balances |
| Banking.Accounts.SavingsBalance | bank/accounts.py:246-254 | `_savings_balance` is the sum of the savings accounts' balances |
| Banking.Accounts.CreditBalance | bank/accounts.py:256-264 | `_credit_balance` is the sum of the credit accounts' balances |
| Banking.Accounts.ComputeTotalBalance | bank/accounts.py:229-234 | `total_balance` is the sum over all three maps |
| Banking.Accounts.TotalIsSlotsTotal | bank/accounts.py:229-234 | `total_balance` equals the registry's total under any snapshot with every member's current balance |
| Banking.RegistryTotal | bank/banks.py:30 | one holder's `total_balance`, recomputed, is that holder's total in the bank's snapshot |
| Banking.Accounts.AccountsSummary | bank/accounts.py:216-227 | the `accounts` line reads back as the sizes of the checking, savings and credit maps |
| Banking.Accounts.TotalBalanceNonNegative | bank/accounts.py:229-264 | with no negative balance among its accounts, a registry's total is not negative |
| Banking.Card.constructor | bank/cards.py:23-48 | the card is stored under its number in the account's linked cards and, as `{account, card}`, in the holder's cards, replacing an earlier entry with that number; other entries are untouched |
| Banking.Card.Verify | bank/cards.py:50-59 | a card that is not active refuses any credentials; an active card accepts exactly its own pin, expiry date and cvv |
| Banking.AccountHolder.constructor | bank/account_holder.py:19-26 | id and names as given; a fresh, empty registry whose issued cards are the holder's `cards`; the holder replaces any holder registered under its id |
| Banking.Bank.constructor | bank/banks.py:19-21 | no holders, and a bank balance of 0 |
| Banking.Bank.Register | bank/account_holder.py:26 | registering an empty registry under an id replaces the holder there, and the bank's balance loses that holder's total, so only the latest holder with an id counts |
| Banking.Bank.HolderTotalIsTotalBalance | bank/banks.py:29-30 | a holder's share of the bank balance is its registry's `total_balance` |
| Banking.SumHolderTotals | bank/banks.py:28-31 | the loop over the holders adds up exactly the holders' totals |
| Banking.Bank.ComputeBankBalance | bank/banks.py:23-31 | `bank_balance`, computed by its loop, is the sum of every registered holder's `total_balance` |
| Banking.Bank.WithdrawFrom | bank/banks.py:49 | the routed account's withdraw; approved, the bank balance falls by the amount for each registry entry holding the account; denied, it stays |
| Banking.Bank.DepositInto | bank/banks.py:69 | the routed account's deposit; approved, the bank balance rises by the amount for each registry entry holding the account; denied, it stays |
| Banking.Bank.WithdrawalTransaction | bank/banks.py:33-53 | no `|` raises `IndexError`; an unknown holder raises `AccountNotExists`; a card the holder lacks is a denial with `KeyError`; otherwise the account's withdraw with its errors returned as denials; only an approval changes the bank balance |
| Banking.Bank.DepositTransaction | bank/banks.py:55-73 | the same routing and error handling around deposit; only an approval changes the bank balance, raising it |
| Banking.Bank.BalanceAfterDeposit | bank/banks.py:24-31 | when only one account's balance rose by an amount, the bank balance rose by its exposure |
| Banking.Bank.BalanceAfterWithdraw | bank/banks.py:24-31 | when only one account's balance fell by an amount, the bank balance fell by its exposure |
| Banking.Bank.BalanceKept | bank/banks.py:24-31 | with the same registries and balances, the bank balance is the same |
| Banking.Bank.HolderTotalKept | bank/banks.py:29-30 | a holder's share is read off the layout under the current balances, and is 0 for an unknown id |
| Banking.Bank.BalanceAfterRegister | bank/account_holder.py:26 | replacing a holder's registry by an empty one takes exactly that holder's total off the bank balance |
| Banking.Bank.ExposureOfSoleAccount | bank/banks.py:49-69 | an account held in exactly one registry entry moves the bank balance by exactly the amount |
| Banking.Bank.ExposureOfUnheldAccount | bank/banks.py:49-69 | an account no registered registry holds does not move the bank balance |
| Banking.Bank.BankBalanceNonNegative | bank/banks.py:24-31 | with no negative balance, the bank balance is not negative |

## Left out

- `CreditAccount` construction (bank/accounts.py:165-186): its `super().__init__` call shifts the arguments, and it writes the undefined attribute `holderaccounts`, so construction fails. The credit map is kept only as a map that counts in `total_balance`.
- `Accounts.holder` and `holder_info`: the back-reference from a registry to its holder serves only `holder_info`, which returns a bound `__repr__`; it is not modelled, and neither is `AccountHolder.__repr__`.
- Timestamps: `time.time()` in the receipts is the parameter `now`; the `open_date` default, evaluated once at import, is an opaque day number given by the caller.
- Floating point: amounts are exact reals, with no IEEE rounding.
- Exception text: `bank/exceptions.py` only formats messages; the errors are a datatype carrying their data, and only the `AccountNotExists` message is kept.
- `via_teller` is unused by the source and not a parameter here; the commented-out `create_account` and `electronic_transfer` are not modelled.
- The order in which Python iterates dictionaries is not modelled; the sums are proved for any order.
- A `KeyError` from a card entry without an `"account"` key cannot arise: entries are built only by `Card.__init__`, so `CardEntry` always has both fields.
- Default arguments (`opening_balance=0`, `status="open"`, `interest_rate=0.001`, `institution="Square"`) are required parameters here; a caller passes the default value explicitly, so no behaviour is lost.
- Negative amounts are accepted, as the source accepts them: a negative deposit can make a balance negative, so non-negativity of balances is stated only for non-negative amounts.
