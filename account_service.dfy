/**
 * The account service: registration, login, balance look-ups, deposits,
 * withdrawals and transfers between accounts. Each operation is a method on
 * the database, specified by a function of the tables before the call.
 */
module AccountService {
  import opened Wrappers
  import opened Entities
  import opened AccountEntity
  import opened Store
  import opened Ledger
  import opened NotificationService
  import Text

  const USERNAME_TAKEN: string := "Username already exists"
  const INVALID_LOGIN: string := "Invalid username or password"
  const ACCOUNT_NOT_FOUND: string := "Account not found"
  const NOT_UNIQUE: string := "IncorrectResultSizeDataAccessException: more than one account with that username"
  const NON_POSITIVE_TRANSFER: string := "Transfer amount must be greater than zero"
  const SENDER_NOT_FOUND: string := "Sender account not found"
  const RECEIVER_NOT_FOUND: string := "Receiver account not found"
  const SENDER_FUNDS: string := "Insufficient funds in sender's account"
  const NO_ACCOUNT_NUMBER: string := "NullPointerException: account number is null"
  const SHORT_ACCOUNT_NUMBER: string := "StringIndexOutOfBoundsException: account number has fewer than four characters"

  /** `"Insufficient funds in account with ID: " + id` */
  function InsufficientFunds(id: int): string
  {
    "Insufficient funds in account with ID: " + Text.IntToString(id)
  }

  /** The password encoder, a library the service only calls: `encode` and `matches(raw, encoded)`. */
  datatype Encoder = Encoder(encode: Option<string> -> string, matches: (Option<string>, Option<string>) -> bool)

  // ---------------------------------------------------------------- findByUsername

  /** The ids of the accounts with that username (`= null` in a derived query means `IS NULL`). */
  ghost function UsernameIds(accounts: map<int, Account>, username: Option<string>): set<int>
  {
    set k | k in accounts && accounts[k].username == username
  }

  lemma SingletonMember<T>(s: set<T>, a: T)
    requires |s| == 1 && a in s
    ensures s == {a}
  {
    assert |s - {a}| == 0;
  }

  /**
   * `accountRepository.findByUsername(username)`: nothing, the one account
   * with that username, or an exception when several accounts share it.
   */
  ghost function FindByUsername(accounts: map<int, Account>, username: Option<string>): (r: Result<Option<Account>>)
    ensures r == Ok(None) <==> forall k :: k in accounts ==> accounts[k].username != username
    ensures r.Ok? && r.value.Some? ==> r.value.value in accounts.Values && r.value.value.username == username
    ensures forall k :: k in accounts && accounts[k].username == username
                        && (forall j :: j in accounts && j != k ==> accounts[j].username != username) ==>
                          r == Ok(Some(accounts[k]))
    ensures r.Err? ==> r.message == NOT_UNIQUE
  {
    var ids := UsernameIds(accounts, username);
    forall k | k in accounts && accounts[k].username == username
                 && (forall j :: j in accounts && j != k ==> accounts[j].username != username)
      ensures ids == {k}
    {
      OnlyMatch(accounts, username, k);
    }
    if ids == {} then
      assert forall k :: k in accounts && accounts[k].username == username ==> k in ids;
      Ok(None)
    else
      var k := Pick(ids);
      assert k in accounts && accounts[k].username == username;
      if |ids| == 1 then
        SingletonMember(ids, k);
        Ok(Some(accounts[k]))
      else
        Err(NOT_UNIQUE)
  }

  /** When one account alone has the username, it is the only match. */
  lemma OnlyMatch(accounts: map<int, Account>, username: Option<string>, k: int)
    requires k in accounts && accounts[k].username == username
    requires forall j :: j in accounts && j != k ==> accounts[j].username != username
    ensures UsernameIds(accounts, username) == {k}
  {
  }

  method LookupUsername(db: Db, username: Option<string>) returns (r: Result<Option<Account>>)
    ensures r == FindByUsername(db.accounts, username)
  {
    var ids := set k | k in db.accounts && db.accounts[k].username == username;
    assert ids == UsernameIds(db.accounts, username);
    if ids == {} {
      r := Ok(None);
    } else if |ids| == 1 {
      var k := Choose(ids);
      SingletonMember(ids, k);
      r := Ok(Some(db.accounts[k]));
    } else {
      r := Err(NOT_UNIQUE);
    }
  }

  // ---------------------------------------------------------------- createAccount

  /** The tables after a save, and the saved account. */
  datatype Updated = Updated(tables: Tables, account: Account)

  /**
   * Where `accountRepository.save` puts a registration body. `bodyId` is the
   * `id` the JSON body carries, `None` when it has none; the other fields
   * come from `account`, whose own `id` is not read. A body with an id is
   * merged: onto the stored row with that id, or, when there is none, as a
   * new row under a generated id, as a body without an id is.
   */
  function SaveTarget(t: Tables, bodyId: Option<int>): int
  {
    if bodyId.Some? && bodyId.value in t.accounts then bodyId.value else t.nextAccountId
  }

  /**
   * `createAccount(account)`: refused when the username is taken; otherwise
   * the account is saved with its password encoded, over the stored row
   * whose id the body names or under the next id.
   */
  ghost function Registered(t: Tables, account: Account, bodyId: Option<int>, enc: Encoder): Result<Updated>
  {
    match FindByUsername(t.accounts, account.username)
    case Err(e) => Err(e)
    case Ok(found) =>
      if found.Some? then Err(USERNAME_TAKEN)
      else
        var k := SaveTarget(t, bodyId);
        var saved := account.(id := k, password := Some(enc.encode(account.password)));
        var next := if k in t.accounts then t.nextAccountId else t.nextAccountId + 1;
        Ok(Updated(t.(accounts := t.accounts[k := saved], nextAccountId := next), saved))
  }

  /**
   * Registration succeeds exactly when no account has the username. The
   * saved account has every field as given except the encoded password.
   * When the body names a stored account's id, that account is overwritten
   * and no account is added; otherwise one account is added under a fresh
   * id. No other account, and no other table, changes.
   */
  lemma RegisteredEffect(t: Tables, account: Account, bodyId: Option<int>, enc: Encoder)
    requires Consistent(t)
    ensures Registered(t, account, bodyId, enc).Ok? <==> forall k :: k in t.accounts ==> t.accounts[k].username != account.username
    ensures Registered(t, account, bodyId, enc).Ok? ==>
              var u := Registered(t, account, bodyId, enc).value;
              Consistent(u.tables)
              && u.account == account.(id := u.account.id, password := Some(enc.encode(account.password)))
              && u.tables.accounts == t.accounts[u.account.id := u.account]
              && (bodyId.Some? && bodyId.value in t.accounts ==>
                    u.account.id == bodyId.value && u.tables.accounts.Keys == t.accounts.Keys)
              && (bodyId.None? || bodyId.value !in t.accounts ==>
                    u.account.id !in t.accounts && u.tables.accounts.Keys == t.accounts.Keys + {u.account.id})
              && u.tables.transactions == t.transactions && u.tables.notifications == t.notifications
              && u.tables.preferences == t.preferences && u.tables.outbox == t.outbox
  {
    if Registered(t, account, bodyId, enc).Ok? {
      var u := Registered(t, account, bodyId, enc).value;
      assert t.nextAccountId !in t.accounts;
      assert forall x :: x in u.tables.transactions ==> x.sender in t.accounts;
    }
  }

  /** A refused registration says the username is taken when exactly one account has it. */
  lemma RegisteredRefusal(t: Tables, account: Account, bodyId: Option<int>, enc: Encoder, k: int)
    requires k in t.accounts && t.accounts[k].username == account.username
    requires forall j :: j in t.accounts && j != k ==> t.accounts[j].username != account.username
    ensures Registered(t, account, bodyId, enc) == Err(USERNAME_TAKEN)
  {
  }

  /**
   * Registering and then logging in: when the encoder recognises the raw
   * password in its own encoding, the new account can log in with it,
   * whether it was added or written over a stored one.
   */
  lemma LoginAfterRegister(t: Tables, account: Account, bodyId: Option<int>, enc: Encoder, password: Option<string>)
    requires Consistent(t)
    requires Registered(t, account, bodyId, enc).Ok?
    requires enc.matches(password, Some(enc.encode(account.password)))
    ensures var u := Registered(t, account, bodyId, enc).value;
            Login(u.tables, account.username, password, enc) == Ok(u.account)
            && AccountExists(u.tables, account.username) == Ok(true)
  {
    var u := Registered(t, account, bodyId, enc).value;
    RegisteredEffect(t, account, bodyId, enc);
    var k := u.account.id;
    assert k in u.tables.accounts && u.tables.accounts[k].username == account.username;
    assert forall j :: j in u.tables.accounts && j != k ==> u.tables.accounts[j].username != account.username;
  }

  method CreateAccount(db: Db, account: Account, bodyId: Option<int>, enc: Encoder) returns (r: Result<Account>)
    requires db.Valid()
    modifies db
    ensures db.Valid()
    ensures Registered(old(db.State()), account, bodyId, enc).Err? ==>
              r == Err(Registered(old(db.State()), account, bodyId, enc).message) && db.State() == old(db.State())
    ensures Registered(old(db.State()), account, bodyId, enc).Ok? ==>
              r == Ok(Registered(old(db.State()), account, bodyId, enc).value.account)
              && db.State() == Registered(old(db.State()), account, bodyId, enc).value.tables
  {
    RegisteredEffect(db.State(), account, bodyId, enc);
    var found := LookupUsername(db, account.username);
    if found.Err? {
      return Err(found.message);
    }
    if found.value.Some? {
      return Err(USERNAME_TAKEN);
    }
    var saved := account.(password := Some(enc.encode(account.password)));
    if bodyId.Some? && bodyId.value in db.accounts {
      saved := saved.(id := bodyId.value);
    } else {
      saved := saved.(id := db.nextAccountId);
      db.nextAccountId := db.nextAccountId + 1;
    }
    db.accounts := db.accounts[saved.id := saved];
    r := Ok(saved);
  }

  // ---------------------------------------------------------------- login and look-ups

  /** `login(username, password)`: the same error for an unknown username and for a wrong password. */
  ghost function Login(t: Tables, username: Option<string>, password: Option<string>, enc: Encoder): Result<Account>
  {
    match FindByUsername(t.accounts, username)
    case Err(e) => Err(e)
    case Ok(None) => Err(INVALID_LOGIN)
    case Ok(Some(a)) => if enc.matches(password, a.password) then Ok(a) else Err(INVALID_LOGIN)
  }

  /**
   * A caller cannot tell an unknown username from a wrong password: both
   * give the same error. A successful login returns an account with that
   * username whose stored password the encoder matched.
   */
  lemma LoginErrorsAlike(t: Tables, unknown: Option<string>, known: Option<string>,
                         p1: Option<string>, p2: Option<string>, enc: Encoder)
    requires forall k :: k in t.accounts ==> t.accounts[k].username != unknown
    requires FindByUsername(t.accounts, known).Ok? && FindByUsername(t.accounts, known).value.Some?
    requires !enc.matches(p2, FindByUsername(t.accounts, known).value.value.password)
    ensures Login(t, unknown, p1, enc) == Login(t, known, p2, enc) == Err(INVALID_LOGIN)
  {
  }

  lemma LoginSucceeds(t: Tables, username: Option<string>, password: Option<string>, enc: Encoder)
    requires Login(t, username, password, enc).Ok?
    ensures var a := Login(t, username, password, enc).value;
            a in t.accounts.Values && a.username == username && enc.matches(password, a.password)
  {
  }

  method LoginMethod(db: Db, username: Option<string>, password: Option<string>, enc: Encoder) returns (r: Result<Account>)
    ensures r == Login(db.State(), username, password, enc)
  {
    var found := LookupUsername(db, username);
    if found.Err? {
      return Err(found.message);
    }
    if found.value.None? {
      return Err(INVALID_LOGIN);
    }
    var account := found.value.value;
    if !enc.matches(password, account.password) {
      return Err(INVALID_LOGIN);
    }
    r := Ok(account);
  }

  /** `accountExists(username)` */
  ghost function AccountExists(t: Tables, username: Option<string>): (r: Result<bool>)
    ensures r.Ok? ==> (r.value <==> exists k :: k in t.accounts && t.accounts[k].username == username)
    ensures r.Err? <==> FindByUsername(t.accounts, username).Err?
  {
    match FindByUsername(t.accounts, username)
    case Err(e) => Err(e)
    case Ok(found) => Ok(found.Some?)
  }

  method AccountExistsMethod(db: Db, username: Option<string>) returns (r: Result<bool>)
    ensures r == AccountExists(db.State(), username)
  {
    var found := LookupUsername(db, username);
    if found.Err? {
      return Err(found.message);
    }
    r := Ok(found.value.Some?);
  }

  /** `getAccountById(id)` */
  function GetAccountById(t: Tables, id: int): (r: Result<Account>)
    ensures r.Ok? <==> id in t.accounts
    ensures r.Ok? ==> r.value == t.accounts[id]
    ensures r.Err? ==> r.message == ACCOUNT_NOT_FOUND
  {
    if id in t.accounts then Ok(t.accounts[id]) else Err(ACCOUNT_NOT_FOUND)
  }

  /** `getBalance(id)`: the balance of the account `getAccountById` finds, failing the same way. */
  function GetBalance(t: Tables, id: int): (r: Result<int>)
    ensures r.Ok? <==> GetAccountById(t, id).Ok?
    ensures r.Ok? ==> r.value == GetAccountById(t, id).value.balance
    ensures r.Err? ==> r.message == ACCOUNT_NOT_FOUND
  {
    if id in t.accounts then Ok(t.accounts[id].balance) else Err(ACCOUNT_NOT_FOUND)
  }

  // ---------------------------------------------------------------- deposit and withdraw

  lemma SaveAccountConsistent(t: Tables, id: int, a: Account)
    requires Consistent(t) && id in t.accounts && a.id == id
    ensures Consistent(t.(accounts := t.accounts[id := a]))
  {
  }

  /** `depositAmount(id, amount)`: the balance grows by `amount` and the owner is told. */
  function AfterDeposit(t: Tables, id: int, amount: int, now: Instant): Result<Updated>
  {
    if id !in t.accounts then Err(ACCOUNT_NOT_FOUND)
    else
      var a := t.accounts[id].(balance := t.accounts[id].balance + amount);
      var notified := AfterNotify(t, a, Deposited(amount), "TRANSACTION", "INFO", now);
      Ok(Updated(notified.(accounts := Credit(t.accounts, id, amount)), a))
  }

  /**
   * A deposit adds exactly `amount` to that account, changes no other
   * account, grows the bank's total by `amount` and appends one
   * notification to the owner.
   */
  lemma DepositEffect(t: Tables, id: int, amount: int, now: Instant)
    requires Consistent(t)
    ensures AfterDeposit(t, id, amount, now).Err? <==> id !in t.accounts
    ensures AfterDeposit(t, id, amount, now).Ok? ==>
              var u := AfterDeposit(t, id, amount, now).value;
              Consistent(u.tables)
              && u.tables.accounts.Keys == t.accounts.Keys
              && u.tables.accounts[id].balance == t.accounts[id].balance + amount
              && u.account == u.tables.accounts[id]
              && (forall j :: j in t.accounts && j != id ==> u.tables.accounts[j] == t.accounts[j])
              && Total(u.tables.accounts) == Total(t.accounts) + amount
              && u.tables.notifications
                   == t.notifications + [NewNotification(t, id, Deposited(amount), "TRANSACTION", "INFO", now)]
  {
    if id in t.accounts {
      var a := t.accounts[id].(balance := t.accounts[id].balance + amount);
      AfterNotifyConsistent(t, a, Deposited(amount), "TRANSACTION", "INFO", now);
      AfterNotifyEffect(t, a, Deposited(amount), "TRANSACTION", "INFO", now);
      CreditTotal(t.accounts, id, amount);
    }
  }

  method DepositAmount(db: Db, id: int, amount: int, now: Instant) returns (r: Result<Account>)
    requires db.Valid()
    modifies db
    ensures db.Valid()
    ensures AfterDeposit(old(db.State()), id, amount, now).Err? ==>
              r == Err(ACCOUNT_NOT_FOUND) && db.State() == old(db.State())
    ensures AfterDeposit(old(db.State()), id, amount, now).Ok? ==>
              r == Ok(AfterDeposit(old(db.State()), id, amount, now).value.account)
              && db.State() == AfterDeposit(old(db.State()), id, amount, now).value.tables
  {
    if id !in db.accounts {
      return Err(ACCOUNT_NOT_FOUND);
    }
    var account := db.accounts[id];
    account := account.(balance := account.balance + amount);
    var _ := CreateNotification(db, account, Deposited(amount), "TRANSACTION", "INFO", now);
    AfterNotifyEffect(old(db.State()), account, Deposited(amount), "TRANSACTION", "INFO", now);
    SaveAccountConsistent(db.State(), id, account);
    db.accounts := db.accounts[id := account];
    r := Ok(account);
  }

  /** `withdrawAmount(id, amount)`: refused when the balance is below `amount`. */
  function AfterWithdraw(t: Tables, id: int, amount: int, now: Instant): Result<Updated>
  {
    if id !in t.accounts then Err(ACCOUNT_NOT_FOUND)
    else if t.accounts[id].balance < amount then Err(InsufficientFunds(id))
    else
      var a := t.accounts[id].(balance := t.accounts[id].balance - amount);
      var notified := AfterNotify(t, a, Withdrawn(amount), "TRANSACTION", "INFO", now);
      Ok(Updated(notified.(accounts := Debit(t.accounts, id, amount)), a))
  }

  /**
   * A withdrawal fails for a missing account and for a balance below the
   * amount; otherwise it takes exactly `amount` from that account, so a
   * non-negative balance stays non-negative, changes no other account and
   * appends one notification to the owner.
   */
  lemma WithdrawEffect(t: Tables, id: int, amount: int, now: Instant)
    requires Consistent(t)
    ensures AfterWithdraw(t, id, amount, now).Err? <==> id !in t.accounts || t.accounts[id].balance < amount
    ensures id in t.accounts && t.accounts[id].balance < amount ==>
              AfterWithdraw(t, id, amount, now) == Err(InsufficientFunds(id))
    ensures AfterWithdraw(t, id, amount, now).Ok? ==>
              var u := AfterWithdraw(t, id, amount, now).value;
              Consistent(u.tables)
              && u.tables.accounts.Keys == t.accounts.Keys
              && u.tables.accounts[id].balance == t.accounts[id].balance - amount
              && u.tables.accounts[id].balance >= 0
              && u.account == u.tables.accounts[id]
              && (forall j :: j in t.accounts && j != id ==> u.tables.accounts[j] == t.accounts[j])
              && Total(u.tables.accounts) == Total(t.accounts) - amount
              && u.tables.notifications
                   == t.notifications + [NewNotification(t, id, Withdrawn(amount), "TRANSACTION", "INFO", now)]
  {
    if id in t.accounts && t.accounts[id].balance >= amount {
      var a := t.accounts[id].(balance := t.accounts[id].balance - amount);
      AfterNotifyConsistent(t, a, Withdrawn(amount), "TRANSACTION", "INFO", now);
      AfterNotifyEffect(t, a, Withdrawn(amount), "TRANSACTION", "INFO", now);
      DebitTotal(t.accounts, id, amount);
    }
  }

  /** Withdrawing what was just deposited puts every balance back, for an account not in debt. */
  lemma DepositThenWithdraw(t: Tables, id: int, amount: int, now: Instant, later: Instant)
    requires Consistent(t) && id in t.accounts && t.accounts[id].balance >= 0
    ensures var d := AfterDeposit(t, id, amount, now).value;
            AfterWithdraw(d.tables, id, amount, later).Ok?
            && AfterWithdraw(d.tables, id, amount, later).value.tables.accounts == t.accounts
  {
    DepositEffect(t, id, amount, now);
    var d := AfterDeposit(t, id, amount, now).value;
    WithdrawEffect(d.tables, id, amount, later);
    var w := AfterWithdraw(d.tables, id, amount, later).value;
    assert w.tables.accounts[id] == t.accounts[id];
  }

  method WithdrawAmount(db: Db, id: int, amount: int, now: Instant) returns (r: Result<Account>)
    requires db.Valid()
    modifies db
    ensures db.Valid()
    ensures AfterWithdraw(old(db.State()), id, amount, now).Err? ==>
              r == Err(AfterWithdraw(old(db.State()), id, amount, now).message) && db.State() == old(db.State())
    ensures AfterWithdraw(old(db.State()), id, amount, now).Ok? ==>
              r == Ok(AfterWithdraw(old(db.State()), id, amount, now).value.account)
              && db.State() == AfterWithdraw(old(db.State()), id, amount, now).value.tables
  {
    var found := GetAccountById(db.State(), id);
    if found.Err? {
      return Err(found.message);
    }
    var account := found.value;
    if account.balance < amount {
      return Err(InsufficientFunds(id));
    }
    account := account.(balance := account.balance - amount);
    var _ := CreateNotification(db, account, Withdrawn(amount), "TRANSACTION", "INFO", now);
    AfterNotifyEffect(old(db.State()), account, Withdrawn(amount), "TRANSACTION", "INFO", now);
    SaveAccountConsistent(db.State(), id, account);
    db.accounts := db.accounts[id := account];
    r := Ok(account);
  }

  // ---------------------------------------------------------------- transferMoney

  /** `accountNumber.substring(accountNumber.length() - 4)`, which throws for a missing or short number. */
  function LastFour(number: Option<string>): (r: Result<string>)
    ensures r.Ok? <==> number.Some? && |number.value| >= 4
    ensures r.Ok? ==> |r.value| == 4 && number.value == number.value[..|number.value| - 4] + r.value
    ensures number.None? ==> r == Err(NO_ACCOUNT_NUMBER)
  {
    match number
    case None => Err(NO_ACCOUNT_NUMBER)
    case Some(s) => if |s| < 4 then Err(SHORT_ACCOUNT_NUMBER) else Ok(s[|s| - 4..])
  }

  /**
   * What a transfer leaves behind: the tables, and the exception when it
   * failed. The method runs in one database transaction, so a failure
   * rolls every table back, but what was already sent stays sent.
   */
  datatype Transferred = Transferred(tables: Tables, error: Option<string>)

  /** `transferMoney(from, to, amount)` */
  function AfterTransfer(t: Tables, from: int, to: int, amount: int, now: Instant): Transferred
  {
    if amount <= 0 then Transferred(t, Some(NON_POSITIVE_TRANSFER))
    else if from !in t.accounts then Transferred(t, Some(SENDER_NOT_FOUND))
    else if to !in t.accounts then Transferred(t, Some(RECEIVER_NOT_FOUND))
    else if t.accounts[from].balance < amount then Transferred(t, Some(SENDER_FUNDS))
    else TransferNotices(t, Transfer(t.accounts, from, to, amount), from, to, amount, now)
  }

  /**
   * After the balances moved to `moved`: the sender is told the last four
   * digits of the receiver's number, then the receiver those of the sender's.
   */
  function TransferNotices(t: Tables, moved: map<int, Account>, from: int, to: int, amount: int, now: Instant): Transferred
    requires from in moved && to in moved
  {
    match LastFour(moved[to].accountNumber)
    case Err(e) => Transferred(t, Some(e))
    case Ok(toDigits) =>
      var first := AfterNotify(t.(accounts := moved), moved[from], TransferredTo(amount, toDigits), "TRANSACTION", "INFO", now);
      match LastFour(moved[from].accountNumber)
      case Err(e) => Transferred(t.(outbox := first.outbox), Some(e))
      case Ok(fromDigits) =>
        Transferred(AfterNotify(first, moved[to], ReceivedFrom(amount, fromDigits), "TRANSACTION", "INFO", now), None)
  }

  /** Why a transfer fails, in the order the checks run. */
  lemma TransferErrors(t: Tables, from: int, to: int, amount: int, now: Instant)
    ensures amount <= 0 ==> AfterTransfer(t, from, to, amount, now) == Transferred(t, Some(NON_POSITIVE_TRANSFER))
    ensures amount > 0 && from !in t.accounts ==> AfterTransfer(t, from, to, amount, now).error == Some(SENDER_NOT_FOUND)
    ensures amount > 0 && from in t.accounts && to !in t.accounts ==>
              AfterTransfer(t, from, to, amount, now).error == Some(RECEIVER_NOT_FOUND)
    ensures amount > 0 && from in t.accounts && to in t.accounts && t.accounts[from].balance < amount ==>
              AfterTransfer(t, from, to, amount, now).error == Some(SENDER_FUNDS)
    ensures AfterTransfer(t, from, to, amount, now).error.None? <==>
              amount > 0 && from in t.accounts && to in t.accounts && t.accounts[from].balance >= amount
              && LastFour(t.accounts[to].accountNumber).Ok? && LastFour(t.accounts[from].accountNumber).Ok?
  {
    if amount > 0 && from in t.accounts && to in t.accounts && t.accounts[from].balance >= amount {
      TransferEffect(t.accounts, from, to, amount);
    }
  }

  /**
   * A failed transfer changes no account, no notification and no other
   * table; only deliveries sent before the failure remain in the outbox.
   */
  lemma TransferFailureChangesNothing(t: Tables, from: int, to: int, amount: int, now: Instant)
    requires AfterTransfer(t, from, to, amount, now).error.Some?
    ensures var r := AfterTransfer(t, from, to, amount, now).tables;
            r.(outbox := t.outbox) == t
            && |t.outbox| <= |r.outbox| && r.outbox[..|t.outbox|] == t.outbox
  {
    if amount > 0 && from in t.accounts && to in t.accounts && t.accounts[from].balance >= amount {
      var moved := Transfer(t.accounts, from, to, amount);
      if LastFour(moved[to].accountNumber).Ok? {
        var toDigits := LastFour(moved[to].accountNumber).value;
        AfterNotifyEffect(t.(accounts := moved), moved[from], TransferredTo(amount, toDigits), "TRANSACTION", "INFO", now);
      }
    }
  }

  /**
   * A successful transfer moves exactly `amount` from one account to the
   * other, touches no third account, keeps the bank's total and keeps the
   * tables consistent.
   */
  lemma TransferSuccess(t: Tables, from: int, to: int, amount: int, now: Instant)
    requires Consistent(t)
    requires AfterTransfer(t, from, to, amount, now).error.None?
    ensures var r := AfterTransfer(t, from, to, amount, now).tables;
            Consistent(r)
            && r.accounts.Keys == t.accounts.Keys
            && (from != to ==> r.accounts[from].balance == t.accounts[from].balance - amount
                               && r.accounts[to].balance == t.accounts[to].balance + amount)
            && (from == to ==> r.accounts == t.accounts)
            && (forall j :: j in t.accounts && j != from && j != to ==> r.accounts[j] == t.accounts[j])
            && Total(r.accounts) == Total(t.accounts)
  {
    var moved := Transfer(t.accounts, from, to, amount);
    TransferEffect(t.accounts, from, to, amount);
    NoticesEffect(t, moved, from, to, amount, now);
  }

  /** A successful transfer notifies the sender, then the receiver, and nobody else. */
  lemma TransferNotifies(t: Tables, from: int, to: int, amount: int, now: Instant)
    requires Consistent(t)
    requires AfterTransfer(t, from, to, amount, now).error.None?
    ensures var r := AfterTransfer(t, from, to, amount, now).tables;
            |r.notifications| == |t.notifications| + 2
            && r.notifications[..|t.notifications|] == t.notifications
            && r.notifications[|t.notifications|].account == from
            && r.notifications[|t.notifications|].message
               == TransferredTo(amount, LastFour(t.accounts[to].accountNumber).value)
            && r.notifications[|t.notifications| + 1].account == to
            && r.notifications[|t.notifications| + 1].message
               == ReceivedFrom(amount, LastFour(t.accounts[from].accountNumber).value)
  {
    var moved := Transfer(t.accounts, from, to, amount);
    TransferEffect(t.accounts, from, to, amount);
    NoticesEffect(t, moved, from, to, amount, now);
  }

  /** The two notifications of a transfer, on balances already moved. */
  lemma NoticesEffect(t: Tables, moved: map<int, Account>, from: int, to: int, amount: int, now: Instant)
    requires Consistent(t) && from in moved && to in moved && moved.Keys == t.accounts.Keys
    requires forall k :: k in moved ==> moved[k].id == k
    requires TransferNotices(t, moved, from, to, amount, now).error.None?
    ensures var r := TransferNotices(t, moved, from, to, amount, now).tables;
            Consistent(r)
            && r.accounts == moved
            && |r.notifications| == |t.notifications| + 2
            && r.notifications[..|t.notifications|] == t.notifications
            && r.notifications[|t.notifications|].account == from
            && r.notifications[|t.notifications|].message
               == TransferredTo(amount, LastFour(moved[to].accountNumber).value)
            && r.notifications[|t.notifications| + 1].account == to
            && r.notifications[|t.notifications| + 1].message
               == ReceivedFrom(amount, LastFour(moved[from].accountNumber).value)
  {
    var t1 := t.(accounts := moved);
    assert Consistent(t1);
    var toDigits := LastFour(moved[to].accountNumber).value;
    var fromDigits := LastFour(moved[from].accountNumber).value;
    var first := AfterNotify(t1, moved[from], TransferredTo(amount, toDigits), "TRANSACTION", "INFO", now);
    AfterNotifyConsistent(t1, moved[from], TransferredTo(amount, toDigits), "TRANSACTION", "INFO", now);
    AfterNotifyEffect(t1, moved[from], TransferredTo(amount, toDigits), "TRANSACTION", "INFO", now);
    AfterNotifyConsistent(first, moved[to], ReceivedFrom(amount, fromDigits), "TRANSACTION", "INFO", now);
    AfterNotifyEffect(first, moved[to], ReceivedFrom(amount, fromDigits), "TRANSACTION", "INFO", now);
  }

  method TransferMoney(db: Db, from: int, to: int, amount: int, now: Instant) returns (r: Option<string>)
    requires db.Valid()
    modifies db
    ensures db.Valid()
    ensures r == AfterTransfer(old(db.State()), from, to, amount, now).error
    ensures db.State() == AfterTransfer(old(db.State()), from, to, amount, now).tables
  {
    if amount <= 0 {
      return Some(NON_POSITIVE_TRANSFER);
    }
    if from !in db.accounts {
      return Some(SENDER_NOT_FOUND);
    }
    if to !in db.accounts {
      return Some(RECEIVER_NOT_FOUND);
    }
    if db.accounts[from].balance < amount {
      return Some(SENDER_FUNDS);
    }
    var before := db.State();
    TransferEffect(db.accounts, from, to, amount);
    db.accounts := Debit(db.accounts, from, amount);
    db.accounts := Credit(db.accounts, to, amount);
    r := SendTransferNotices(db, before, from, to, amount, now);
  }

  /** The notifications of a transfer whose balances have moved; `before` is what a failure restores. */
  method SendTransferNotices(db: Db, before: Tables, from: int, to: int, amount: int, now: Instant) returns (r: Option<string>)
    requires Consistent(before) && from in db.accounts && to in db.accounts
    requires db.State() == before.(accounts := db.accounts) && db.accounts.Keys == before.accounts.Keys
    requires forall k :: k in db.accounts ==> db.accounts[k].id == k
    modifies db
    ensures db.Valid()
    ensures r == TransferNotices(before, old(db.accounts), from, to, amount, now).error
    ensures db.State() == TransferNotices(before, old(db.accounts), from, to, amount, now).tables
  {
    assert db.Valid();
    var toDigits := LastFour(db.accounts[to].accountNumber);
    if toDigits.Err? {
      db.Restore(before);
      return Some(toDigits.message);
    }
    var _ := CreateNotification(db, db.accounts[from], TransferredTo(amount, toDigits.value), "TRANSACTION", "INFO", now);
    AfterNotifyEffect(old(db.State()), old(db.accounts)[from], TransferredTo(amount, toDigits.value), "TRANSACTION", "INFO", now);
    var fromDigits := LastFour(db.accounts[from].accountNumber);
    if fromDigits.Err? {
      var sent := db.outbox;
      db.Restore(before);
      db.outbox := sent;
      return Some(fromDigits.message);
    }
    var _ := CreateNotification(db, db.accounts[to], ReceivedFrom(amount, fromDigits.value), "TRANSACTION", "INFO", now);
    r := None;
  }
}
