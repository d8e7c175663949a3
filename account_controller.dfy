/**
 * The account endpoints: request validation and HTTP status codes in front
 * of the account service, and the login bookkeeping (address, time and
 * device of the last login, and a security notification).
 */
module AccountController {
  import opened Wrappers
  import opened Entities
  import opened AccountEntity
  import opened Store
  import opened NotificationService
  import opened AccountService

  const OK: nat := 200
  const CREATED: nat := 201
  const BAD_REQUEST: nat := 400
  const UNAUTHORIZED: nat := 401
  const CONFLICT: nat := 409

  const LOGIN_MESSAGE: string := "New login to your account"
  const TRANSFER_DONE: string := "Transfer successful"
  const DEPOSIT_NOT_POSITIVE: string := "Deposit amount must be greater than zero"
  const WITHDRAW_NOT_POSITIVE: string := "Withdraw amount must be greater than zero"
  /**
   * The failure of `Double.parseDouble(payload.get("amount").toString())`:
   * a `NullPointerException` when the body has no amount, a
   * `NumberFormatException` when it is not a number. Its text is not modelled.
   */
  const AMOUNT_UNREADABLE: string := "Amount is missing or not a number"

  /** An HTTP response: status and account body. */
  datatype Reply = Reply(status: nat, body: Option<Account>)

  /** The tables after a request, and the response or the exception that escaped. */
  datatype Handled = Handled(tables: Tables, reply: Result<Reply>)

  // ---------------------------------------------------------------- register

  /** The fields a registration must carry: a username, a password and a non-empty holder name. */
  predicate WellFormed(account: Account)
  {
    account.username.Some? && account.password.Some?
    && account.accountHolderName.Some? && account.accountHolderName.value != ""
  }

  /** `POST /api/accounts/register`; `bodyId` is the `id` the JSON body carries, if any. */
  ghost function Register(t: Tables, account: Account, bodyId: Option<int>, enc: Encoder): Handled
  {
    if !WellFormed(account) then Handled(t, Ok(Reply(BAD_REQUEST, None)))
    else
      match AccountExists(t, account.username)
      case Err(e) => Handled(t, Err(e))
      case Ok(exists_) =>
        if exists_ then Handled(t, Ok(Reply(CONFLICT, None)))
        else
          match Registered(t, account, bodyId, enc)
          case Err(e) => Handled(t, Err(e))
          case Ok(u) => Handled(u.tables, Ok(Reply(CREATED, Some(u.account))))
  }

  /** An ill-formed registration is refused with 400 before the username is looked at, and changes nothing. */
  lemma RegisterValidatesFirst(t: Tables, account: Account, bodyId: Option<int>, enc: Encoder)
    requires !WellFormed(account)
    ensures Register(t, account, bodyId, enc) == Handled(t, Ok(Reply(BAD_REQUEST, None)))
  {
  }

  /**
   * A well-formed registration answers 409 and changes nothing when some
   * account has the username, and otherwise 201 with the account the
   * service saved: over the stored account whose id the body names, or
   * under a new id when the body names none that is stored.
   */
  lemma RegisterStatus(t: Tables, account: Account, bodyId: Option<int>, enc: Encoder)
    requires Consistent(t) && WellFormed(account)
    requires FindByUsername(t.accounts, account.username).Ok?
    ensures var h := Register(t, account, bodyId, enc);
            h.reply.Ok?
            && (h.reply.value.status == CONFLICT <==>
                  exists k :: k in t.accounts && t.accounts[k].username == account.username)
            && (h.reply.value.status == CONFLICT ==> h.tables == t && h.reply.value.body.None?)
            && (h.reply.value.status != CONFLICT ==>
                  h.reply.value.status == CREATED
                  && h.reply.value.body == Some(Registered(t, account, bodyId, enc).value.account)
                  && h.tables == Registered(t, account, bodyId, enc).value.tables
                  && (bodyId.Some? && bodyId.value in t.accounts ==> h.reply.value.body.value.id == bodyId.value)
                  && (bodyId.None? || bodyId.value !in t.accounts ==> h.reply.value.body.value.id !in t.accounts))
  {
    RegisteredEffect(t, account, bodyId, enc);
  }

  method RegisterHandler(db: Db, account: Account, bodyId: Option<int>, enc: Encoder) returns (r: Result<Reply>)
    requires db.Valid()
    modifies db
    ensures db.Valid()
    ensures r == Register(old(db.State()), account, bodyId, enc).reply
    ensures db.State() == Register(old(db.State()), account, bodyId, enc).tables
  {
    if account.username.None? || account.password.None?
       || account.accountHolderName.None? || account.accountHolderName.value == "" {
      return Ok(Reply(BAD_REQUEST, None));
    }
    var exists_ := AccountExistsMethod(db, account.username);
    if exists_.Err? {
      return Err(exists_.message);
    }
    if exists_.value {
      return Ok(Reply(CONFLICT, None));
    }
    var saved := CreateAccount(db, account, bodyId, enc);
    r := Ok(Reply(CREATED, Some(saved.value)));
  }

  // ---------------------------------------------------------------- login

  /** The account as saved after a login: address, time and device recorded. */
  function Recorded(a: Account, remoteAddr: Option<string>, userAgent: Option<string>, now: Instant): (r: Account)
    ensures r.lastLoginIp == remoteAddr && r.lastLoginTime == Some(now) && r.lastLoginDevice == userAgent
    ensures r.(lastLoginIp := a.lastLoginIp, lastLoginTime := a.lastLoginTime, lastLoginDevice := a.lastLoginDevice) == a
  {
    a.(lastLoginIp := remoteAddr, lastLoginTime := Some(now), lastLoginDevice := userAgent)
  }

  /**
   * `POST /api/accounts/login`: every exception of the login, including a
   * username held by several accounts, becomes 401.
   */
  ghost function LoginRequest(t: Tables, username: Option<string>, password: Option<string>, enc: Encoder,
                              remoteAddr: Option<string>, userAgent: Option<string>, now: Instant): Handled
  {
    match Login(t, username, password, enc)
    case Err(_) => Handled(t, Ok(Reply(UNAUTHORIZED, None)))
    case Ok(a) =>
      var saved := Recorded(a, remoteAddr, userAgent, now);
      var t1 := t.(accounts := t.accounts[saved.id := saved]);
      Handled(AfterNotify(t1, saved, Fixed(LOGIN_MESSAGE), "SECURITY", "INFO", now), Ok(Reply(OK, Some(saved))))
  }

  /** A refused login answers 401 and records nothing. */
  lemma FailedLoginRecordsNothing(t: Tables, username: Option<string>, password: Option<string>, enc: Encoder,
                                  remoteAddr: Option<string>, userAgent: Option<string>, now: Instant)
    requires Login(t, username, password, enc).Err?
    ensures LoginRequest(t, username, password, enc, remoteAddr, userAgent, now) == Handled(t, Ok(Reply(UNAUTHORIZED, None)))
  {
  }

  /**
   * A successful login answers 200 with the account, saves its address,
   * time and device and nothing else of it, and appends exactly one
   * SECURITY/INFO notification to its owner.
   */
  lemma LoginRecords(t: Tables, username: Option<string>, password: Option<string>, enc: Encoder,
                     remoteAddr: Option<string>, userAgent: Option<string>, now: Instant)
    requires Consistent(t)
    requires Login(t, username, password, enc).Ok?
    ensures var a := Login(t, username, password, enc).value;
            var h := LoginRequest(t, username, password, enc, remoteAddr, userAgent, now);
            Consistent(h.tables)
            && h.reply == Ok(Reply(OK, Some(Recorded(a, remoteAddr, userAgent, now))))
            && a.id in t.accounts
            && h.tables.accounts == t.accounts[a.id := Recorded(a, remoteAddr, userAgent, now)]
            && h.tables.transactions == t.transactions
            && h.tables.notifications
               == t.notifications + [NewNotification(t, a.id, Fixed(LOGIN_MESSAGE), "SECURITY", "INFO", now)]
  {
    var a := Login(t, username, password, enc).value;
    LoginSucceeds(t, username, password, enc);
    var k :| k in t.accounts && t.accounts[k] == a;
    var saved := Recorded(a, remoteAddr, userAgent, now);
    var t1 := t.(accounts := t.accounts[saved.id := saved]);
    SaveAccountConsistent(t, a.id, saved);
    AfterNotifyConsistent(t1, saved, Fixed(LOGIN_MESSAGE), "SECURITY", "INFO", now);
    AfterNotifyEffect(t1, saved, Fixed(LOGIN_MESSAGE), "SECURITY", "INFO", now);
  }

  method LoginHandler(db: Db, username: Option<string>, password: Option<string>, enc: Encoder,
                      remoteAddr: Option<string>, userAgent: Option<string>, now: Instant) returns (r: Result<Reply>)
    requires db.Valid()
    modifies db
    ensures db.Valid()
    ensures r == LoginRequest(old(db.State()), username, password, enc, remoteAddr, userAgent, now).reply
    ensures db.State() == LoginRequest(old(db.State()), username, password, enc, remoteAddr, userAgent, now).tables
  {
    var found := LoginMethod(db, username, password, enc);
    if found.Err? {
      return Ok(Reply(UNAUTHORIZED, None));
    }
    LoginRecords(db.State(), username, password, enc, remoteAddr, userAgent, now);
    var account := found.value;
    account := account.(lastLoginIp := remoteAddr);
    account := account.(lastLoginTime := Some(now));
    account := account.(lastLoginDevice := userAgent);
    SaveAccountConsistent(db.State(), account.id, account);
    db.accounts := db.accounts[account.id := account];
    var _ := CreateNotification(db, account, Fixed(LOGIN_MESSAGE), "SECURITY", "INFO", now);
    r := Ok(Reply(OK, Some(account)));
  }

  // ---------------------------------------------------------------- deposit, withdraw, transfer

  /**
   * `POST /api/accounts/{id}/deposit`: `amount` is the parsed body amount,
   * None when it is missing or does not parse; that and a non-positive
   * amount are refused before the service is called.
   */
  function DepositRequest(t: Tables, id: int, amount: Option<int>, now: Instant): Handled
  {
    if amount.None? then Handled(t, Err(AMOUNT_UNREADABLE))
    else if amount.value <= 0 then Handled(t, Err(DEPOSIT_NOT_POSITIVE))
    else
      match AfterDeposit(t, id, amount.value, now)
      case Err(e) => Handled(t, Err(e))
      case Ok(u) => Handled(u.tables, Ok(Reply(OK, Some(u.account))))
  }

  /** `POST /api/accounts/{id}/withdraw`: as the deposit, with its own message. */
  function WithdrawRequest(t: Tables, id: int, amount: Option<int>, now: Instant): Handled
  {
    if amount.None? then Handled(t, Err(AMOUNT_UNREADABLE))
    else if amount.value <= 0 then Handled(t, Err(WITHDRAW_NOT_POSITIVE))
    else
      match AfterWithdraw(t, id, amount.value, now)
      case Err(e) => Handled(t, Err(e))
      case Ok(u) => Handled(u.tables, Ok(Reply(OK, Some(u.account))))
  }

  /**
   * The amount guards: a missing or unparsable amount fails and changes
   * nothing; a non-positive amount changes nothing and names the operation;
   * a positive one gets exactly the service's answer.
   */
  lemma AmountGuards(t: Tables, id: int, amount: Option<int>, now: Instant)
    ensures amount.None? ==> DepositRequest(t, id, amount, now) == Handled(t, Err(AMOUNT_UNREADABLE))
    ensures amount.None? ==> WithdrawRequest(t, id, amount, now) == Handled(t, Err(AMOUNT_UNREADABLE))
    ensures amount.Some? && amount.value <= 0 ==>
              DepositRequest(t, id, amount, now) == Handled(t, Err(DEPOSIT_NOT_POSITIVE))
    ensures amount.Some? && amount.value <= 0 ==>
              WithdrawRequest(t, id, amount, now) == Handled(t, Err(WITHDRAW_NOT_POSITIVE))
    ensures amount.Some? && amount.value > 0 ==>
              (DepositRequest(t, id, amount, now).reply.Ok? <==> AfterDeposit(t, id, amount.value, now).Ok?)
    ensures amount.Some? && amount.value > 0 ==>
              (WithdrawRequest(t, id, amount, now).reply.Ok? <==> AfterWithdraw(t, id, amount.value, now).Ok?)
    ensures amount.Some? && amount.value > 0 && AfterDeposit(t, id, amount.value, now).Ok? ==>
              DepositRequest(t, id, amount, now).tables == AfterDeposit(t, id, amount.value, now).value.tables
    ensures amount.Some? && amount.value > 0 && AfterWithdraw(t, id, amount.value, now).Ok? ==>
              WithdrawRequest(t, id, amount, now).tables == AfterWithdraw(t, id, amount.value, now).value.tables
  {
  }

  /** Through the guard, a deposit never lowers a balance and a withdrawal never raises one. */
  lemma GuardedDirection(t: Tables, id: int, amount: Option<int>, now: Instant)
    requires Consistent(t)
    ensures var d := DepositRequest(t, id, amount, now);
            d.reply.Ok? ==> id in t.accounts && d.tables.accounts[id].balance > t.accounts[id].balance
    ensures var w := WithdrawRequest(t, id, amount, now);
            w.reply.Ok? ==> id in t.accounts && w.tables.accounts[id].balance < t.accounts[id].balance
  {
    if amount.Some? && amount.value > 0 {
      DepositEffect(t, id, amount.value, now);
      WithdrawEffect(t, id, amount.value, now);
    }
  }

  method DepositHandler(db: Db, id: int, amount: Option<int>, now: Instant) returns (r: Result<Reply>)
    requires db.Valid()
    modifies db
    ensures db.Valid()
    ensures r == DepositRequest(old(db.State()), id, amount, now).reply
    ensures db.State() == DepositRequest(old(db.State()), id, amount, now).tables
  {
    if amount.None? {
      return Err(AMOUNT_UNREADABLE);
    }
    if amount.value <= 0 {
      return Err(DEPOSIT_NOT_POSITIVE);
    }
    var updated := DepositAmount(db, id, amount.value, now);
    if updated.Err? {
      return Err(updated.message);
    }
    r := Ok(Reply(OK, Some(updated.value)));
  }

  method WithdrawHandler(db: Db, id: int, amount: Option<int>, now: Instant) returns (r: Result<Reply>)
    requires db.Valid()
    modifies db
    ensures db.Valid()
    ensures r == WithdrawRequest(old(db.State()), id, amount, now).reply
    ensures db.State() == WithdrawRequest(old(db.State()), id, amount, now).tables
  {
    if amount.None? {
      return Err(AMOUNT_UNREADABLE);
    }
    if amount.value <= 0 {
      return Err(WITHDRAW_NOT_POSITIVE);
    }
    var updated := WithdrawAmount(db, id, amount.value, now);
    if updated.Err? {
      return Err(updated.message);
    }
    r := Ok(Reply(OK, Some(updated.value)));
  }

  /**
   * `POST /api/accounts/{fromId}/transfer/{toId}`: a missing or unparsable
   * amount fails and changes nothing; otherwise the service's exception, or
   * the confirmation text.
   */
  method TransferHandler(db: Db, fromId: int, toId: int, amount: Option<int>, now: Instant) returns (r: Result<string>)
    requires db.Valid()
    modifies db
    ensures db.Valid()
    ensures amount.None? ==> r == Err(AMOUNT_UNREADABLE) && db.State() == old(db.State())
    ensures amount.Some? ==>
              (r.Ok? <==> AfterTransfer(old(db.State()), fromId, toId, amount.value, now).error.None?)
              && (r.Ok? ==> r.value == TRANSFER_DONE)
              && (r.Err? ==> Some(r.message) == AfterTransfer(old(db.State()), fromId, toId, amount.value, now).error)
              && db.State() == AfterTransfer(old(db.State()), fromId, toId, amount.value, now).tables
  {
    if amount.None? {
      return Err(AMOUNT_UNREADABLE);
    }
    var error := TransferMoney(db, fromId, toId, amount.value, now);
    if error.Some? {
      return Err(error.value);
    }
    r := Ok(TRANSFER_DONE);
  }
}
