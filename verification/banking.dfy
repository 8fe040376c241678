/**
 * The object graph of the bank: accounts, the per-holder registry of
 * accounts and issued cards, cards, account holders and the bank.
 *
 * The Python objects point at each other (an account at its registry, a
 * card at its account and holder, a holder at its registry and bank), and
 * several constructors insert the new object into a dictionary of another
 * object. The classes below keep those references and those side effects:
 * a dictionary that one object updates in place is a `map` field that its
 * methods and the constructors of other classes reassign, and the one
 * dictionary that two objects share (a holder's `cards` is its registry's
 * `issued_cards`) is an object of its own, CardTable.
 */
module Banking {
  import opened Transactions
  import opened MapSums
  import opened Ledgers
  import CardNumbers
  import Summary
  import Options

  /** Which class of bank/accounts.py built the account. */
  datatype Kind = BaseAccount | CheckingAccount | SavingsAccount(interestRate: real)

  /** The value stored in issued_cards: {"account": account, "card": card}. */
  datatype CardEntry = CardEntry(account: Account, card: Card)

  /** The dictionary a bank transaction returns: status True with the receipt, or status False with the error. */
  datatype Response = Approved(receipt: Receipt) | Denied(error: TxError)

  /** A bank transaction either returns a Response or raises. */
  datatype BankCall = Returned(response: Response) | RaisedAccountNotExists(message: string) | RaisedIndexError

  /** Where a card number leads. */
  datatype Route = Unparsable | UnknownHolder(holderId: string) | UnknownCard(holderId: string) | Target(account: Account)

  const NOT_EXISTS_MESSAGE: string := "Account associated with that card does not exist."
  const CARD_ACTIVE: string := "active"
  const CHECKING_TYPE: string := "checking"

  /** `except Exception as e: return {"status": False, "error": e}` around an account operation. */
  function Catch(a: Attempt): (r: Response)
    ensures r.Approved? <==> a.Done?
    ensures r.Approved? ==> r.receipt == a.receipt
    ensures r.Denied? ==> r.error == a.error
  {
    match a
    case Done(receipt) => Approved(receipt)
    case Raised(e) => Denied(e)
  }

  /** The balance of each account of an id-keyed map of accounts. */
  ghost function Balances(m: map<string, Account>): (b: map<string, real>)
    reads m.Values
    ensures b.Keys == m.Keys
    ensures forall k :: k in m ==> b[k] == m[k].balance
  {
    map k | k in m :: m[k].balance
  }

  /** The balance of the entry `id` of `m` that an insertion under `id` replaces. */
  ghost function Displaced(m: map<string, Account>, id: string): real
    reads m.Values
  {
    if id in m then m[id].balance else 0.0
  }

  /** The balance of each account of `s`, taken as one value. */
  ghost function Snapshot(s: set<Account>): (bal: map<Account, real>)
    reads s
    ensures bal.Keys == s
    ensures forall a :: a in s ==> bal[a] == a.balance
  {
    map a | a in s :: a.balance
  }

  /** The balances of a map's accounts, read off a snapshot that has them all, sum as read off the accounts. */
  lemma BalancesAreUnder(m: map<string, Account>, bal: map<Account, real>)
    requires forall a :: a in m.Values ==> a in bal && bal[a] == a.balance
    ensures MapSum(Balances(m)) == MapSum(BalancesUnder(m, bal))
  {
    forall k | k in m ensures Balances(m)[k] == BalancesUnder(m, bal)[k] {
      assert m[k] in m.Values;
    }
    MapSumSame(Balances(m), BalancesUnder(m, bal));
  }

  /**
   * An account (bank/accounts.py, class Account and its subclasses
   * CheckingAccount and SavingsAccount, told apart by `kind`).
   */
  class Account {
    const accountId: string
    const accountType: string
    const kind: Kind
    const holderAccounts: Accounts
    /** The source stores the account id here, not the holder id it is given. */
    const accountholderId: string
    var balance: real
    /** The opening date, as an opaque day number. */
    const openDate: int
    var status: string
    var linkedCards: map<string, Card>
    const withdrawalLimit: real

    /** What withdraw and deposit read. */
    function State(): (s: AccountState)
      reads this
      ensures s.balance == balance && s.status == status
      ensures s.accountId == accountId && s.withdrawalLimit == withdrawalLimit
    {
      AccountState(accountId, status, withdrawalLimit, balance)
    }

    /** Account.__init__: a negative opening balance is stored as 0. */
    constructor (accountId: string, accountType: string, holderAccounts: Accounts, accountholderId: string,
                 openingBalance: real, openDate: int, status: string)
      ensures this.accountId == accountId && this.accountType == accountType && kind == BaseAccount
      ensures this.holderAccounts == holderAccounts && this.accountholderId == accountId
      ensures balance == OpeningBalance(openingBalance)
      ensures this.openDate == openDate && this.status == status
      ensures linkedCards == map[] && withdrawalLimit == WITHDRAWAL_LIMIT
    {
      this.accountId := accountId;
      this.accountType := accountType;
      kind := BaseAccount;
      this.holderAccounts := holderAccounts;
      this.accountholderId := accountId;
      balance := OpeningBalance(openingBalance);
      this.openDate := openDate;
      this.status := status;
      linkedCards := map[];
      withdrawalLimit := WITHDRAWAL_LIMIT;
    }

    /**
     * CheckingAccount.__init__: the account type is always "checking", and
     * the account enters its registry's checking map under its id,
     * replacing any account there with that id.
     */
    constructor Checking(accountId: string, accountType: string, holderAccounts: Accounts, accountholderId: string,
                         openingBalance: real, openDate: int, status: string)
      modifies holderAccounts`checkingAccounts
      ensures this.accountId == accountId && this.accountType == CHECKING_TYPE && kind == CheckingAccount
      ensures this.holderAccounts == holderAccounts && this.accountholderId == accountId
      ensures balance == OpeningBalance(openingBalance)
      ensures this.openDate == openDate && this.status == status
      ensures linkedCards == map[] && withdrawalLimit == WITHDRAWAL_LIMIT
      ensures holderAccounts.checkingAccounts == old(holderAccounts.checkingAccounts)[accountId := this]
      ensures holderAccounts.TotalBalance()
              == old(holderAccounts.TotalBalance()) - old(Displaced(holderAccounts.checkingAccounts, accountId)) + balance
    {
      ghost var own, other1, other2 := Balances(holderAccounts.checkingAccounts), Balances(holderAccounts.savingAccounts),
                                   Balances(holderAccounts.creditAccounts);
      assert holderAccounts.TotalBalance() == MapSum(own) + MapSum(other1) + MapSum(other2);
      this.accountId := accountId;
      this.accountType := CHECKING_TYPE;
      kind := CheckingAccount;
      this.holderAccounts := holderAccounts;
      this.accountholderId := accountId;
      balance := OpeningBalance(openingBalance);
      this.openDate := openDate;
      this.status := status;
      linkedCards := map[];
      withdrawalLimit := WITHDRAWAL_LIMIT;
      new;
      var m := holderAccounts.checkingAccounts;
      holderAccounts.checkingAccounts := m[accountId := this];
      MapSumUpdate(own, accountId, balance);
      MapSumSame(Balances(holderAccounts.checkingAccounts), own[accountId := balance]);
      MapSumSame(Balances(holderAccounts.savingAccounts), other1);
      MapSumSame(Balances(holderAccounts.creditAccounts), other2);
    }

    /**
     * SavingsAccount.__init__: keeps the account type it is given and the
     * interest rate, and enters its registry's savings map under its id,
     * replacing any account there with that id.
     */
    constructor Savings(accountId: string, accountType: string, holderAccounts: Accounts, accountholderId: string,
                        openingBalance: real, openDate: int, status: string, interestRate: real)
      modifies holderAccounts`savingAccounts
      ensures this.accountId == accountId && this.accountType == accountType && kind == SavingsAccount(interestRate)
      ensures this.holderAccounts == holderAccounts && this.accountholderId == accountId
      ensures balance == OpeningBalance(openingBalance)
      ensures this.openDate == openDate && this.status == status
      ensures linkedCards == map[] && withdrawalLimit == WITHDRAWAL_LIMIT
      ensures holderAccounts.savingAccounts == old(holderAccounts.savingAccounts)[accountId := this]
      ensures holderAccounts.TotalBalance()
              == old(holderAccounts.TotalBalance()) - old(Displaced(holderAccounts.savingAccounts, accountId)) + balance
    {
      ghost var own, other1, other2 := Balances(holderAccounts.savingAccounts), Balances(holderAccounts.checkingAccounts),
                                   Balances(holderAccounts.creditAccounts);
      assert holderAccounts.TotalBalance() == MapSum(own) + MapSum(other1) + MapSum(other2);
      this.accountId := accountId;
      this.accountType := accountType;
      kind := SavingsAccount(interestRate);
      this.holderAccounts := holderAccounts;
      this.accountholderId := accountId;
      balance := OpeningBalance(openingBalance);
      this.openDate := openDate;
      this.status := status;
      linkedCards := map[];
      withdrawalLimit := WITHDRAWAL_LIMIT;
      new;
      var m := holderAccounts.savingAccounts;
      holderAccounts.savingAccounts := m[accountId := this];
      MapSumUpdate(own, accountId, balance);
      MapSumSame(Balances(holderAccounts.savingAccounts), own[accountId := balance]);
      MapSumSame(Balances(holderAccounts.checkingAccounts), other1);
      MapSumSame(Balances(holderAccounts.creditAccounts), other2);
    }

    /**
     * Account.withdraw: raises when the account is not open, then when the
     * amount is over the limit, then when it is over the balance; otherwise
     * takes the amount off the balance and returns the new balance.
     */
    method Withdraw(amount: real, now: int) returns (attempt: Attempt)
      modifies this`balance
      ensures attempt == AttemptOf(Transactions.Withdraw(old(State()), amount), now)
      ensures balance == (match Transactions.Withdraw(old(State()), amount)
                          case Ok(after) => after.balance
                          case Err(_) => old(balance))
      ensures balance == (if attempt.Done? then old(balance) - amount else old(balance))
    {
      if status != OPEN {
        return Raised(AccountError(accountId, status));
      } else if amount > withdrawalLimit {
        return Raised(ExceedsLimit(withdrawalLimit));
      } else if amount > balance {
        return Raised(InsufficientBalance(balance, amount));
      } else {
        balance := balance - amount;
        return Done(Receipt(balance, now));
      }
    }

    /** Account.deposit: raises when the account is not open, otherwise adds the amount. */
    method Deposit(amount: real, now: int) returns (attempt: Attempt)
      modifies this`balance
      ensures attempt == AttemptOf(Transactions.Deposit(old(State()), amount), now)
      ensures balance == (match Transactions.Deposit(old(State()), amount)
                          case Ok(after) => after.balance
                          case Err(_) => old(balance))
      ensures balance == (if attempt.Done? then old(balance) + amount else old(balance))
    {
      if status != OPEN {
        return Raised(AccountError(accountId, status));
      }
      balance := balance + amount;
      return Done(Receipt(balance, now));
    }
  }

  /**
   * Adds up the balances of the accounts of `m` one entry at a time, as the
   * `_checking_balance`, `_savings_balance` and `_credit_balance`
   * properties do.
   */
  method SumBalances(m: map<string, Account>) returns (bal: real)
    ensures bal == MapSum(Balances(m))
  {
    ghost var b := Balances(m);
    bal := 0.0;
    var todo := m.Keys;
    assert b - (m.Keys - todo) == b;
    while todo != {}
      invariant todo <= m.Keys
      invariant bal + MapSum(b - (m.Keys - todo)) == MapSum(b)
      decreases todo
    {
      var id :| id in todo;
      ghost var rest := b - (m.Keys - todo);
      MapSumRemove(rest, id);
      assert rest - {id} == b - (m.Keys - (todo - {id}));
      bal := bal + m[id].balance;
      todo := todo - {id};
    }
    assert b - (m.Keys - todo) == map[];
  }

  /**
   * A registry's `total_balance`, computed afresh, is its total in any
   * snapshot that has the current balance of each of its accounts.
   */
  method RegistryTotal(registry: Accounts, ghost slots: Slots<Account>, ghost bal: map<Account, real>) returns (total: real)
    requires registry.Slots() == slots
    requires Held(slots) <= bal.Keys
    requires forall a :: a in bal ==> a.balance == bal[a]
    ensures total == SlotsTotal(slots, bal)
  {
    total := registry.ComputeTotalBalance();
    registry.TotalIsSlotsTotal(bal);
  }

  /**
   * The loop of `bank_balance`: every holder's `total_balance`, computed
   * afresh and added up, gives the sum of the holders' totals `t`.
   */
  method SumHolderTotals(holders: map<string, AccountHolder>, ghost layout: map<string, Slots<Account>>,
                         ghost bal: map<Account, real>, ghost t: map<string, real>) returns (tmp: real)
    requires t.Keys == holders.Keys && layout.Keys == holders.Keys
    requires forall id :: id in holders ==> holders[id].accounts.Slots() == layout[id]
    requires forall id :: id in holders ==> Held(layout[id]) <= bal.Keys
    requires forall a :: a in bal ==> a.balance == bal[a]
    requires forall id :: id in holders ==> t[id] == SlotsTotal(layout[id], bal)
    ensures tmp == MapSum(t)
  {
    tmp := 0.0;
    var todo := holders.Keys;
    MapSumRestrictAll(t, todo);
    while todo != {}
      invariant todo <= holders.Keys
      invariant forall id :: id in holders ==> holders[id].accounts.Slots() == layout[id]
      invariant forall a :: a in bal ==> a.balance == bal[a]
      invariant tmp + MapSum(Restrict(t, todo)) == MapSum(t)
      decreases todo
    {
      var id :| id in todo;
      MapSumRestrictTake(t, todo, id);
      var holderTotal := RegistryTotal(holders[id].accounts, layout[id], bal);
      tmp := tmp + holderTotal;
      todo := todo - {id};
    }
    MapSumRestrictNone(t);
  }

  /** The registry of one holder (bank/accounts.py, class Accounts). */
  class Accounts {
    const accountholderId: string
    var checkingAccounts: map<string, Account>
    var savingAccounts: map<string, Account>
    var creditAccounts: map<string, Account>
    const issuedCards: CardTable

    constructor (accountholderId: string)
      ensures this.accountholderId == accountholderId
      ensures checkingAccounts == map[] && savingAccounts == map[] && creditAccounts == map[]
      ensures fresh(issuedCards) && issuedCards.entries == map[]
    {
      this.accountholderId := accountholderId;
      checkingAccounts := map[];
      savingAccounts := map[];
      creditAccounts := map[];
      issuedCards := new CardTable();
    }

    /** Every account the three maps hold. */
    ghost function Members(): set<Account>
      reads this
    {
      checkingAccounts.Values + savingAccounts.Values + creditAccounts.Values
    }

    /** `total_balance`: the balances of all three maps added up. */
    ghost function TotalBalance(): real
      reads this, Members()
    {
      MapSum(Balances(checkingAccounts)) + MapSum(Balances(savingAccounts)) + MapSum(Balances(creditAccounts))
    }

    /** The three maps as one value. */
    function Slots(): (s: Slots<Account>)
      reads this
      ensures Held(s) == Members()
    {
      Ledgers.Slots(checkingAccounts, savingAccounts, creditAccounts)
    }

    /** `total_balance` is the registry's total under any snapshot that has every member's balance. */
    lemma TotalIsSlotsTotal(bal: map<Account, real>)
      requires forall a :: a in Members() ==> a in bal && bal[a] == a.balance
      ensures TotalBalance() == SlotsTotal(Slots(), bal)
    {
      BalancesAreUnder(checkingAccounts, bal);
      BalancesAreUnder(savingAccounts, bal);
      BalancesAreUnder(creditAccounts, bal);
    }

    method CheckingBalance() returns (bal: real)
      ensures bal == MapSum(Balances(checkingAccounts))
    {
      bal := SumBalances(checkingAccounts);
    }

    method SavingsBalance() returns (bal: real)
      ensures bal == MapSum(Balances(savingAccounts))
    {
      bal := SumBalances(savingAccounts);
    }

    method CreditBalance() returns (bal: real)
      ensures bal == MapSum(Balances(creditAccounts))
    {
      bal := SumBalances(creditAccounts);
    }

    /** `total_balance`, computed afresh from the three maps. */
    method ComputeTotalBalance() returns (total: real)
      ensures total == TotalBalance()
    {
      var c := CheckingBalance();
      var s := SavingsBalance();
      var k := CreditBalance();
      total := c + s + k;
    }

    /** The `accounts` property: a line that reports the size of each map. */
    function AccountsSummary(): (line: string)
      reads this
      ensures Summary.ParseSummary(line) == Options.Some((|checkingAccounts|, |savingAccounts|, |creditAccounts|))
    {
      Summary.ParseSummaryText(|checkingAccounts|, |savingAccounts|, |creditAccounts|);
      Summary.SummaryText(|checkingAccounts|, |savingAccounts|, |creditAccounts|)
    }

    /** With every balance non-negative, the total is non-negative. */
    lemma TotalBalanceNonNegative()
      requires forall a :: a in Members() ==> a.balance >= 0.0
      ensures TotalBalance() >= 0.0
    {
      MapSumNonNegative(Balances(checkingAccounts));
      MapSumNonNegative(Balances(savingAccounts));
      MapSumNonNegative(Balances(creditAccounts));
    }
  }

  /** A dictionary of issued cards; a holder and its registry share one. */
  class CardTable {
    var entries: map<string, CardEntry>

    constructor ()
      ensures entries == map[]
    {
      entries := map[];
    }
  }

  /** A card (bank/cards.py, class Card). */
  class Card {
    const accountHolder: AccountHolder
    const account: Account
    const holderFirstname: string
    const holderLastname: string
    const cardNumber: string
    const pin: string
    const expiryDate: string
    const cvv: string
    var status: string

    /**
     * Card.__init__: the card links itself into the account's linked cards
     * and into the holder's cards, under its number, replacing any earlier
     * card with that number in both.
     */
    constructor (accountHolder: AccountHolder, account: Account, holderFirstname: string, holderLastname: string,
                 cardNumber: string, pin: string, expiryDate: string, cvv: string, status: string)
      modifies account`linkedCards, accountHolder.cards`entries
      ensures this.accountHolder == accountHolder && this.account == account
      ensures this.holderFirstname == holderFirstname && this.holderLastname == holderLastname
      ensures this.cardNumber == cardNumber && this.pin == pin && this.expiryDate == expiryDate
      ensures this.cvv == cvv && this.status == status
      ensures account.linkedCards == old(account.linkedCards)[cardNumber := this]
      ensures accountHolder.cards.entries == old(accountHolder.cards.entries)[cardNumber := CardEntry(account, this)]
    {
      this.accountHolder := accountHolder;
      this.account := account;
      this.holderFirstname := holderFirstname;
      this.holderLastname := holderLastname;
      this.cardNumber := cardNumber;
      this.pin := pin;
      this.expiryDate := expiryDate;
      this.cvv := cvv;
      this.status := status;
      new;
      account.linkedCards := account.linkedCards[cardNumber := this];
      accountHolder.cards.entries := accountHolder.cards.entries[cardNumber := CardEntry(account, this)];
    }

    /**
     * Card.verify: a card that is not active refuses everything; an active
     * card accepts exactly its own pin, expiry date and cvv.
     */
    function Verify(pin: string, expiry: string, cvv: string): (ok: bool)
      reads this
      ensures status != CARD_ACTIVE ==> !ok
      ensures ok ==> pin == this.pin && expiry == expiryDate && cvv == this.cvv
      ensures status == CARD_ACTIVE && pin == this.pin && expiry == expiryDate && cvv == this.cvv ==> ok
    {
      if status != CARD_ACTIVE then false
      else pin == this.pin && expiry == expiryDate && cvv == this.cvv
    }
  }

  /** An account holder (bank/account_holder.py, class AccountHolder). */
  class AccountHolder {
    const bank: Bank
    const accountholderId: string
    const firstName: string
    const lastName: string
    const accounts: Accounts
    /** The very table of issued cards of `accounts`. */
    const cards: CardTable

    /**
     * AccountHolder.__init__: a fresh, empty registry whose issued cards are
     * the holder's cards, and registration in the bank under the holder's
     * id, replacing any earlier holder with that id (Bank.Register states
     * what the registration does to the bank's balance).
     */
    constructor (bank: Bank, accountholderId: string, firstName: string, lastName: string)
      modifies bank`accountHolders
      ensures this.bank == bank && this.accountholderId == accountholderId
      ensures this.firstName == firstName && this.lastName == lastName
      ensures fresh(accounts) && fresh(cards)
      ensures accounts.accountholderId == accountholderId
      ensures accounts.checkingAccounts == map[] && accounts.savingAccounts == map[] && accounts.creditAccounts == map[]
      ensures cards == accounts.issuedCards && cards.entries == map[]
      ensures bank.accountHolders == old(bank.accountHolders)[accountholderId := this]
    {
      this.bank := bank;
      this.accountholderId := accountholderId;
      this.firstName := firstName;
      this.lastName := lastName;
      var registry := new Accounts(accountholderId);
      accounts := registry;
      cards := registry.issuedCards;
      new;
      bank.Register(this);
    }
  }

  /** The bank (bank/banks.py, class Bank). */
  class Bank {
    const institution: string
    var accountHolders: map<string, AccountHolder>

    constructor (institution: string)
      ensures this.institution == institution && accountHolders == map[]
      ensures BankBalance() == 0.0
    {
      this.institution := institution;
      accountHolders := map[];
      new;
      assert HolderTotals() == map[];
    }

    /** The registries of the registered holders. */
    ghost function Registries(): set<Accounts>
      reads this
    {
      set h | h in accountHolders.Values :: h.accounts
    }

    /** The card tables of the registered holders. */
    ghost function CardTables(): set<CardTable>
      reads this
    {
      set h | h in accountHolders.Values :: h.cards
    }

    /** Every registered holder's three account maps, by holder id. */
    ghost function Layout(): (l: map<string, Slots<Account>>)
      reads this, Registries()
      ensures l.Keys == accountHolders.Keys
      ensures forall id :: id in accountHolders ==> l[id] == accountHolders[id].accounts.Slots()
    {
      map id | id in accountHolders :: accountHolders[id].accounts.Slots()
    }

    /** Every account some registered holder's registry holds. */
    ghost function Members(): set<Account>
      reads this, Registries()
    {
      LayoutHeld(Layout())
    }

    /** Each registered holder's total. */
    ghost function HolderTotals(): (t: map<string, real>)
      reads this, Registries(), Members()
      ensures t.Keys == accountHolders.Keys
    {
      LayoutTotals(Layout(), Snapshot(Members()))
    }

    /** The total of the holder registered under `id`, 0 when there is none. */
    ghost function HolderTotal(id: string): real
      reads this, Registries(), Members()
    {
      if id in accountHolders then HolderTotals()[id] else 0.0
    }

    /** `bank_balance`: the sum of every registered holder's total. */
    ghost function BankBalance(): real
      reads this, Registries(), Members()
    {
      MapSum(HolderTotals())
    }

    /** The weight `x` counted once for every registry entry, over all registered holders, that holds `a`. */
    ghost function Exposure(a: Account, x: real): real
      reads this, Registries()
    {
      LayoutExposure(Layout(), a, x)
    }

    /** Account `a` sits in exactly one registry entry over all registered holders. */
    ghost predicate HoldsOnce(a: Account)
      reads this, Registries()
    {
      LayoutHoldsOnce(Layout(), a)
    }

    /** Where the bank's transactions send a card number. */
    ghost function Lookup(cardNumber: string): Route
      reads this, CardTables()
    {
      match CardNumbers.RoutingKey(cardNumber)
      case None => Unparsable
      case Some(key) =>
        if key !in accountHolders then UnknownHolder(key)
        else if cardNumber !in accountHolders[key].cards.entries then UnknownCard(key)
        else Target(accountHolders[key].cards.entries[cardNumber].account)
    }

    /** The account a card number leads to, if any. */
    ghost function Routed(cardNumber: string): set<Account>
      reads this, CardTables()
    {
      if Lookup(cardNumber).Target? then {Lookup(cardNumber).account} else {}
    }

    /** A holder's entry in HolderTotals is that holder's `total_balance`. */
    lemma HolderTotalIsTotalBalance(id: string)
      requires id in accountHolders
      ensures HolderTotals()[id] == accountHolders[id].accounts.TotalBalance()
    {
      var r := accountHolders[id].accounts;
      var bal := Snapshot(Members());
      assert Layout()[id] == r.Slots();
      forall a | a in r.Members() ensures a in bal && bal[a] == a.balance {
        assert a in Held(Layout()[id]);
      }
      r.TotalIsSlotsTotal(bal);
    }

    /**
     * `self.bank.account_holders[accountholder_id] = self`: the holder, with
     * an empty registry, replaces whatever was registered under its id.
     */
    method Register(holder: AccountHolder)
      requires holder.accounts.Slots() == NoSlots()
      modifies this`accountHolders
      ensures accountHolders == old(accountHolders)[holder.accountholderId := holder]
      ensures BankBalance() == old(BankBalance()) - old(HolderTotal(holder.accountholderId))
    {
      ghost var layout, bal := Layout(), Snapshot(Members());
      var id := holder.accountholderId;
      HolderTotalKept(layout, bal, id);
      assert BankBalance() == LayoutTotal(layout, bal);
      accountHolders := accountHolders[id := holder];
      assert Layout() == layout[id := NoSlots()] by {
        forall j | j in accountHolders ensures Layout()[j] == layout[id := NoSlots()][j] {
          var r := accountHolders[j].accounts;
          assert r.Slots() == old(r.Slots());
        }
        LayoutsEqual(Layout(), layout[id := NoSlots()]);
      }
      BalanceAfterRegister(layout, bal, id);
    }

    /** `bank_balance`, computed afresh, holder by holder. */
    method ComputeBankBalance() returns (tmp: real)
      ensures tmp == BankBalance()
    {
      ghost var layout, bal := Layout(), Snapshot(Members());
      tmp := SumHolderTotals(accountHolders, layout, bal, LayoutTotals(layout, bal));
      assert Layout() == layout by {
        forall id | id in accountHolders ensures Layout()[id] == layout[id] {
          var r := accountHolders[id].accounts;
          assert r.Slots() == old(r.Slots());
        }
        LayoutsEqual(Layout(), layout);
      }
      BalanceKept(layout, bal);
    }

    /**
     * Account.withdraw on one account, with what it does to the bank's
     * balance: an approved withdrawal lowers it by the amount for every
     * registry entry holding the account, a denied one leaves it.
     */
    method WithdrawFrom(account: Account, amount: real, now: int) returns (attempt: Attempt)
      modifies account`balance
      ensures
        var r := Transactions.Withdraw(old(account.State()), amount);
        && attempt == AttemptOf(r, now)
        && account.balance == (if r.Ok? then r.after.balance else old(account.balance))
      ensures attempt.Done? ==> BankBalance() == old(BankBalance()) - Exposure(account, amount)
      ensures !attempt.Done? ==> BankBalance() == old(BankBalance())
    {
      ghost var layout, bal := Layout(), Snapshot(Members());
      assert BankBalance() == LayoutTotal(layout, bal);
      attempt := account.Withdraw(amount, now);
      assert Layout() == layout by {
        forall id | id in accountHolders ensures Layout()[id] == layout[id] {
          var r := accountHolders[id].accounts;
          assert r.Slots() == old(r.Slots());
        }
        LayoutsEqual(Layout(), layout);
      }
      if attempt.Done? {
        assert BankBalance() == LayoutTotal(layout, bal) - Exposure(account, amount) by {
          BalanceAfterWithdraw(layout, bal, account, amount);
        }
      } else {
        assert BankBalance() == LayoutTotal(layout, bal) by {
          BalanceAfterDeposit(layout, bal, account, 0.0);
          LayoutExposureZero(layout, account);
        }
      }
    }

    /**
     * Account.deposit on one account, with what it does to the bank's
     * balance: an approved deposit raises it by the amount for every
     * registry entry holding the account, a denied one leaves it.
     */
    method DepositInto(account: Account, amount: real, now: int) returns (attempt: Attempt)
      modifies account`balance
      ensures
        var r := Transactions.Deposit(old(account.State()), amount);
        && attempt == AttemptOf(r, now)
        && account.balance == (if r.Ok? then r.after.balance else old(account.balance))
      ensures attempt.Done? ==> BankBalance() == old(BankBalance()) + Exposure(account, amount)
      ensures !attempt.Done? ==> BankBalance() == old(BankBalance())
    {
      ghost var layout, bal := Layout(), Snapshot(Members());
      assert BankBalance() == LayoutTotal(layout, bal);
      attempt := account.Deposit(amount, now);
      assert Layout() == layout by {
        forall id | id in accountHolders ensures Layout()[id] == layout[id] {
          var r := accountHolders[id].accounts;
          assert r.Slots() == old(r.Slots());
        }
        LayoutsEqual(Layout(), layout);
      }
      if attempt.Done? {
        assert BankBalance() == LayoutTotal(layout, bal) + Exposure(account, amount) by {
          BalanceAfterDeposit(layout, bal, account, amount);
        }
      } else {
        assert BankBalance() == LayoutTotal(layout, bal) by {
          BalanceAfterDeposit(layout, bal, account, 0.0);
          LayoutExposureZero(layout, account);
        }
      }
    }

    /**
     * Bank.withdrawal_transaction: routes the card number to a holder,
     * raises AccountNotExists for an unknown holder, and turns every error
     * raised while finding the card or withdrawing into a denial.
     */
    method WithdrawalTransaction(cardNumber: string, amount: real, now: int) returns (call: BankCall)
      modifies Routed(cardNumber)`balance
      ensures old(Lookup(cardNumber)).Unparsable? ==> call == RaisedIndexError
      ensures old(Lookup(cardNumber)).UnknownHolder? ==> call == RaisedAccountNotExists(NOT_EXISTS_MESSAGE)
      ensures old(Lookup(cardNumber)).UnknownCard? ==> call == Returned(Denied(KeyError(cardNumber)))
      ensures old(Lookup(cardNumber)).Target? ==>
                var a := old(Lookup(cardNumber)).account;
                var r := Transactions.Withdraw(old(a.State()), amount);
                && call == Returned(Catch(AttemptOf(r, now)))
                && a.balance == (if r.Ok? then r.after.balance else old(a.balance))
      ensures call.Returned? && call.response.Approved? ==>
                BankBalance() == old(BankBalance()) - Exposure(old(Lookup(cardNumber)).account, amount)
      ensures !(call.Returned? && call.response.Approved?) ==> BankBalance() == old(BankBalance())
    {
      var key := CardNumbers.RoutingKey(cardNumber);
      if key.None? {
        return RaisedIndexError;
      }
      if key.value !in accountHolders {
        return RaisedAccountNotExists(NOT_EXISTS_MESSAGE);
      }
      var holder := accountHolders[key.value];
      assert holder.cards in CardTables();
      if cardNumber !in holder.cards.entries {
        return Returned(Denied(KeyError(cardNumber)));
      }
      var account := holder.cards.entries[cardNumber].account;
      assert Lookup(cardNumber) == Target(account);
      var attempt := WithdrawFrom(account, amount, now);
      call := Returned(Catch(attempt));
    }

    /**
     * Bank.deposit_transaction: the same routing and error handling as
     * withdrawal_transaction, around Account.deposit.
     */
    method DepositTransaction(cardNumber: string, amount: real, now: int) returns (call: BankCall)
      modifies Routed(cardNumber)`balance
      ensures old(Lookup(cardNumber)).Unparsable? ==> call == RaisedIndexError
      ensures old(Lookup(cardNumber)).UnknownHolder? ==> call == RaisedAccountNotExists(NOT_EXISTS_MESSAGE)
      ensures old(Lookup(cardNumber)).UnknownCard? ==> call == Returned(Denied(KeyError(cardNumber)))
      ensures old(Lookup(cardNumber)).Target? ==>
                var a := old(Lookup(cardNumber)).account;
                var r := Transactions.Deposit(old(a.State()), amount);
                && call == Returned(Catch(AttemptOf(r, now)))
                && a.balance == (if r.Ok? then r.after.balance else old(a.balance))
      ensures call.Returned? && call.response.Approved? ==>
                BankBalance() == old(BankBalance()) + Exposure(old(Lookup(cardNumber)).account, amount)
      ensures !(call.Returned? && call.response.Approved?) ==> BankBalance() == old(BankBalance())
    {
      var key := CardNumbers.RoutingKey(cardNumber);
      if key.None? {
        return RaisedIndexError;
      }
      if key.value !in accountHolders {
        return RaisedAccountNotExists(NOT_EXISTS_MESSAGE);
      }
      var holder := accountHolders[key.value];
      assert holder.cards in CardTables();
      if cardNumber !in holder.cards.entries {
        return Returned(Denied(KeyError(cardNumber)));
      }
      var account := holder.cards.entries[cardNumber].account;
      assert Lookup(cardNumber) == Target(account);
      var attempt := DepositInto(account, amount, now);
      call := Returned(Catch(attempt));
    }

    /**
     * The bank's balance after only the balance of `a` rose by `amount`,
     * given the layout and the balances before: it rises by `amount` for
     * every registry entry holding `a`.
     */
    lemma BalanceAfterDeposit(layout: map<string, Slots<Account>>, bal: map<Account, real>, a: Account, amount: real)
      requires Layout() == layout
      requires bal.Keys == LayoutHeld(layout)
      requires forall x :: x in bal && x != a ==> x.balance == bal[x]
      requires a in bal ==> a.balance == bal[a] + amount
      ensures BankBalance() == LayoutTotal(layout, bal) + Exposure(a, amount)
    {
      var now := Snapshot(Members());
      assert BankBalance() == LayoutTotal(layout, now);
      LayoutMoved(layout, bal, now, a, amount);
    }

    /**
     * The bank's balance after only the balance of `a` fell by `amount`,
     * given the layout and the balances before: it falls by `amount` for
     * every registry entry holding `a`.
     */
    lemma BalanceAfterWithdraw(layout: map<string, Slots<Account>>, bal: map<Account, real>, a: Account, amount: real)
      requires Layout() == layout
      requires bal.Keys == LayoutHeld(layout)
      requires forall x :: x in bal && x != a ==> x.balance == bal[x]
      requires a in bal ==> bal[a] == a.balance + amount
      ensures BankBalance() == LayoutTotal(layout, bal) - Exposure(a, amount)
    {
      var now := Snapshot(Members());
      assert BankBalance() == LayoutTotal(layout, now);
      LayoutMoved(layout, now, bal, a, amount);
    }

    /** The bank's balance when no balance moved, given the layout and the balances before. */
    lemma BalanceKept(layout: map<string, Slots<Account>>, bal: map<Account, real>)
      requires Layout() == layout
      requires bal.Keys == LayoutHeld(layout)
      requires forall x :: x in bal ==> x.balance == bal[x]
      ensures BankBalance() == LayoutTotal(layout, bal)
    {
      LayoutAgree(layout, Snapshot(Members()), bal);
    }

    /** A holder's total, read off the layout under a snapshot of the current balances. */
    lemma HolderTotalKept(layout: map<string, Slots<Account>>, bal: map<Account, real>, id: string)
      requires Layout() == layout
      requires bal.Keys == LayoutHeld(layout)
      requires forall x :: x in bal ==> x.balance == bal[x]
      ensures HolderTotal(id) == if id in layout then SlotsTotal(layout[id], bal) else 0.0
    {
      if id in layout {
        SlotsAgree(layout[id], Snapshot(Members()), bal);
      }
    }

    /**
     * The bank's balance after an empty registry was registered under `id`,
     * given the layout and the balances before.
     */
    lemma BalanceAfterRegister(layout: map<string, Slots<Account>>, bal: map<Account, real>, id: string)
      requires Layout() == layout[id := NoSlots()]
      requires bal.Keys == LayoutHeld(layout)
      requires forall x :: x in bal ==> x.balance == bal[x]
      ensures BankBalance() == LayoutTotal(layout, bal) - (if id in layout then SlotsTotal(layout[id], bal) else 0.0)
    {
      var now := Snapshot(Members());
      assert BankBalance() == LayoutTotal(Layout(), now);
      forall j, x | j in layout && j != id && x in Held(layout[j]) ensures x in bal && x in now && now[x] == bal[x] {
        assert Layout()[j] == layout[j];
      }
      LayoutRegistered(layout, id, bal, now);
    }

    /**
     * An account held in exactly one registry entry of the bank moves the
     * bank's balance by exactly the transaction amount.
     */
    lemma ExposureOfSoleAccount(a: Account, x: real)
      requires HoldsOnce(a)
      ensures Exposure(a, x) == x
    {
      LayoutExposureOnce(Layout(), a, x);
    }

    /** An account no registered holder's registry holds does not move the bank's balance. */
    lemma ExposureOfUnheldAccount(a: Account, x: real)
      requires a !in Members()
      ensures Exposure(a, x) == 0.0
    {
      LayoutExposureAbsent(Layout(), a, x);
    }

    /** With no negative balance, the bank's balance is not negative. */
    lemma BankBalanceNonNegative()
      requires forall a :: a in Members() ==> a.balance >= 0.0
      ensures BankBalance() >= 0.0
    {
      LayoutTotalNonNegative(Layout(), Snapshot(Members()));
    }
  }
}
