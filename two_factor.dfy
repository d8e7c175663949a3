/**
 * One-time codes: a six-digit secret drawn from random bytes, stored on the
 * account with a five-minute expiry and sent by e-mail or SMS; validating it
 * once clears it.
 */
module TwoFactor {
  import opened Wrappers
  import opened Entities
  import opened AccountEntity
  import opened Store
  import Text

  const SECRET_LENGTH: nat := 6
  const SECRET_EXPIRY_MINUTES: int := 5

  /** A Java `byte`: signed, -128 to 127. */
  newtype Int8 = x: int | -128 <= x < 128

  /** Java's `%` on integers: the remainder takes the sign of the dividend. */
  function JavaRem(a: int, b: int): (r: int)
    requires b > 0
    ensures -b < r < b
    ensures a >= 0 ==> r >= 0
    ensures a <= 0 ==> r <= 0
    ensures Abs(r) == Abs(a) % b
  {
    if a >= 0 then a % b else -((-a) % b)
  }

  function Abs(a: int): (r: nat)
    ensures r == a || r == -a
  {
    if a < 0 then -a else a
  }

  /** `Math.abs(b % 10)` written as a character. */
  function DigitOf(b: Int8): (c: char)
    ensures '0' <= c <= '9'
  {
    var d := Abs(JavaRem(b as int, 10));
    ('0' as int + d) as char
  }

  /** Every digit can be drawn: the byte `d` gives the digit `d`. */
  lemma EveryDigitReachable(d: int)
    requires 0 <= d < 10
    ensures DigitOf(d as Int8) as int - '0' as int == d
  {
  }

  /**
   * `generateSecret()` on the bytes `SecureRandom.nextBytes` filled: one
   * digit per byte, in order.
   */
  method GenerateSecret(bytes: seq<Int8>) returns (secret: string)
    requires |bytes| == SECRET_LENGTH
    ensures |secret| == SECRET_LENGTH && Text.IsDigits(secret)
    ensures forall i :: 0 <= i < SECRET_LENGTH ==> secret[i] == DigitOf(bytes[i])
  {
    secret := "";
    for i := 0 to SECRET_LENGTH
      invariant |secret| == i
      invariant forall j :: 0 <= j < i ==> secret[j] == DigitOf(bytes[j])
    {
      secret := secret + [DigitOf(bytes[i])];
    }
  }

  /** The account as saved: the secret and its expiry set. */
  function WithSecret(account: Account, secret: string, now: Instant): (a: Account)
    ensures a.twoFactorSecret == Some(secret) && a.secretExpiry == Some(now + SECRET_EXPIRY_MINUTES * 60)
    ensures a.(twoFactorSecret := account.twoFactorSecret, secretExpiry := account.secretExpiry) == account
  {
    account.(twoFactorSecret := Some(secret), secretExpiry := Some(now + FIVE_MINUTES))
  }

  /** Where the code goes: by e-mail for "email", by SMS for "sms", nowhere otherwise. */
  function CodeDeliveries(account: Account, channel: Option<string>, secret: string): (d: seq<Delivery>)
    ensures channel == Some("email") ==> d == [CodeByEmail(account.email, secret)]
    ensures channel == Some("sms") ==> d == [CodeBySms(account.phoneNumber, secret)]
    ensures channel != Some("email") && channel != Some("sms") ==> d == []
  {
    if channel == Some("email") then [CodeByEmail(account.email, secret)]
    else if channel == Some("sms") then [CodeBySms(account.phoneNumber, secret)]
    else []
  }

  /** The tables after `generateAndSendSecret(account, channel)` issued `secret`. */
  function SecretIssued(t: Tables, account: Account, channel: Option<string>, secret: string, now: Instant): Tables
  {
    t.(accounts := t.accounts[account.id := WithSecret(account, secret, now)],
       outbox := t.outbox + CodeDeliveries(account, channel, secret))
  }

  /**
   * Issuing a code saves the account with the code and an expiry five
   * minutes ahead, whatever the method, and sends at most one message;
   * nothing else changes.
   */
  lemma SecretIssuedEffect(t: Tables, account: Account, channel: Option<string>, secret: string, now: Instant)
    requires Consistent(t) && account.id in t.accounts
    ensures var r := SecretIssued(t, account, channel, secret, now);
            Consistent(r)
            && r.accounts.Keys == t.accounts.Keys
            && r.accounts[account.id].twoFactorSecret == Some(secret)
            && r.accounts[account.id].secretExpiry == Some(now + 300)
            && (forall k :: k in t.accounts && k != account.id ==> r.accounts[k] == t.accounts[k])
            && |r.outbox| <= |t.outbox| + 1 && r.outbox[..|t.outbox|] == t.outbox
            && r.(accounts := t.accounts, outbox := t.outbox) == t
  {
  }

  method GenerateAndSendSecret(db: Db, account: Account, channel: Option<string>, bytes: seq<Int8>, now: Instant)
    returns (secret: string)
    requires db.Valid() && account.id in db.accounts && |bytes| == SECRET_LENGTH
    modifies db
    ensures db.Valid()
    ensures |secret| == SECRET_LENGTH && Text.IsDigits(secret)
    ensures forall i :: 0 <= i < SECRET_LENGTH ==> secret[i] == DigitOf(bytes[i])
    ensures db.State() == SecretIssued(old(db.State()), account, channel, secret, now)
  {
    secret := GenerateSecret(bytes);
    var saved := account.(twoFactorSecret := Some(secret));
    saved := saved.(secretExpiry := Some(now + SECRET_EXPIRY_MINUTES * 60));
    db.accounts := db.accounts[saved.id := saved];
    if channel == Some("email") {
      db.outbox := db.outbox + [CodeByEmail(saved.email, secret)];
    } else if channel == Some("sms") {
      db.outbox := db.outbox + [CodeBySms(saved.phoneNumber, secret)];
    }
  }

  /** The tables after a validation, and its answer (an error when a secret has no expiry). */
  datatype Validation = Validation(tables: Tables, outcome: Result<bool>)

  const NO_EXPIRY: string := "NullPointerException: secret expiry is null"

  /** `validateSecret(account, provided)` at time `now`. */
  function Validated(t: Tables, account: Account, provided: Option<string>, now: Instant): Validation
  {
    if account.twoFactorSecret.None? then Validation(t, Ok(false))
    else if account.secretExpiry.None? then Validation(t, Err(NO_EXPIRY))
    else if account.secretExpiry.value < now then Validation(t, Ok(false))
    else if provided == account.twoFactorSecret then
      Validation(t.(accounts := t.accounts[account.id := account.(twoFactorSecret := None, secretExpiry := None)]), Ok(true))
    else Validation(t, Ok(false))
  }

  /**
   * A code is accepted exactly when a secret is stored, it has not expired
   * (an expiry equal to `now` still counts) and the code equals it.
   */
  lemma ValidatedAnswer(t: Tables, account: Account, provided: Option<string>, now: Instant)
    ensures Validated(t, account, provided, now).outcome.Err? <==>
              account.twoFactorSecret.Some? && account.secretExpiry.None?
    ensures Validated(t, account, provided, now).outcome == Ok(true) <==>
              account.twoFactorSecret.Some? && account.secretExpiry.Some?
              && now <= account.secretExpiry.value && provided == account.twoFactorSecret
  {
  }

  /** A validation that does not accept changes nothing: the secret and its expiry stay stored. */
  lemma FailedValidationChangesNothing(t: Tables, account: Account, provided: Option<string>, now: Instant)
    requires Validated(t, account, provided, now).outcome != Ok(true)
    ensures Validated(t, account, provided, now).tables == t
  {
  }

  /**
   * One-time use: once accepted, the account is saved without a secret or
   * expiry, so validating the saved account again fails, whatever the code.
   */
  lemma OneTimeUse(t: Tables, account: Account, provided: Option<string>, now: Instant,
                   again: Option<string>, later: Instant)
    requires Validated(t, account, provided, now).outcome == Ok(true)
    ensures var v := Validated(t, account, provided, now).tables;
            account.id in v.accounts
            && v.accounts[account.id].twoFactorSecret.None? && v.accounts[account.id].secretExpiry.None?
            && Validated(v, v.accounts[account.id], again, later) == Validation(v, Ok(false))
  {
  }

  /**
   * Issue then validate: the issued code is accepted up to and including
   * five minutes later and refused after that; any other code is refused.
   */
  lemma IssueThenValidate(t: Tables, account: Account, channel: Option<string>, secret: string, now: Instant,
                          provided: Option<string>, later: Instant)
    ensures var issued := SecretIssued(t, account, channel, secret, now);
            var saved := issued.accounts[account.id];
            Validated(issued, saved, provided, later).outcome
              == Ok(later <= now + 300 && provided == Some(secret))
  {
  }

  method ValidateSecret(db: Db, account: Account, provided: Option<string>, now: Instant) returns (r: Result<bool>)
    requires db.Valid() && account.id in db.accounts
    modifies db
    ensures db.Valid()
    ensures r == Validated(old(db.State()), account, provided, now).outcome
    ensures db.State() == Validated(old(db.State()), account, provided, now).tables
  {
    if account.twoFactorSecret.None? {
      return Ok(false);
    }
    if account.secretExpiry.None? {
      return Err(NO_EXPIRY);
    }
    if account.secretExpiry.value < now {
      return Ok(false);
    }
    var isValid := account.twoFactorSecret == provided;
    if isValid {
      var cleared := account.(twoFactorSecret := None);
      cleared := cleared.(secretExpiry := None);
      db.accounts := db.accounts[cleared.id := cleared];
    }
    r := Ok(isValid);
  }
}
