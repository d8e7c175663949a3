/**
 * The notification-preference endpoints: reading an account's preferences
 * (creating the default record on first use) and overwriting its flags and
 * thresholds from a request body.
 */
module PreferenceController {
  import opened Wrappers
  import opened Entities
  import opened AccountEntity
  import opened PreferenceEntity
  import opened Store
  import opened NotificationService

  const ACCOUNT_NOT_FOUND: string := "Account not found"

  /** The tables after a request, and the record it answered with. */
  datatype Answered = Answered(tables: Tables, preference: NotificationPreference)

  /** `GET /api/notifications/preferences/{accountId}`: get-or-create. */
  function GetPreferences(t: Tables, accountId: int): Result<Answered>
  {
    if accountId !in t.accounts then Err(ACCOUNT_NOT_FOUND)
    else Ok(Answered(WithPreference(t, accountId), PreferenceFor(t, accountId)))
  }

  /**
   * The first read of an account without preferences saves and returns
   * the default record under the next id; a read of an account with
   * preferences returns them and changes nothing; an unknown account fails.
   */
  lemma GetPreferencesEffect(t: Tables, accountId: int)
    requires Consistent(t)
    ensures GetPreferences(t, accountId).Err? <==> accountId !in t.accounts
    ensures accountId in t.accounts && accountId !in t.preferences ==>
              var r := GetPreferences(t, accountId).value;
              r.preference == DefaultPreference(t.nextPreferenceId, accountId)
              && r.tables.preferences == t.preferences[accountId := r.preference]
              && r.tables.nextPreferenceId == t.nextPreferenceId + 1
              && Consistent(r.tables)
    ensures accountId in t.accounts && accountId in t.preferences ==>
              GetPreferences(t, accountId).value == Answered(t, t.preferences[accountId])
  {
  }

  /** A second read returns the record the first one returned, and changes nothing. */
  lemma GetTwice(t: Tables, accountId: int)
    requires GetPreferences(t, accountId).Ok?
    ensures var first := GetPreferences(t, accountId).value;
            GetPreferences(first.tables, accountId) == Ok(Answered(first.tables, first.preference))
  {
    WithPreferenceIdempotent(t, accountId);
  }

  /** The stored record with the eleven flags and thresholds of `body`; its id and account stay. */
  function Copied(existing: NotificationPreference, body: NotificationPreference): (r: NotificationPreference)
    ensures r.id == existing.id && r.account == existing.account
    ensures r.(id := body.id, account := body.account) == body
  {
    existing.(enableRealTimeNotifications := body.enableRealTimeNotifications,
              enableEmailNotifications := body.enableEmailNotifications,
              emailForTransactions := body.emailForTransactions,
              emailForSecurity := body.emailForSecurity,
              emailForSystem := body.emailForSystem,
              emailTransactionThreshold := body.emailTransactionThreshold,
              enableSmsNotifications := body.enableSmsNotifications,
              smsForTransactions := body.smsForTransactions,
              smsForSecurity := body.smsForSecurity,
              smsForSystem := body.smsForSystem,
              smsTransactionThreshold := body.smsTransactionThreshold)
  }

  /**
   * `PUT /api/notifications/preferences/{accountId}`: the stored record (a
   * new one, saved under the next id, when there is none) takes the body's
   * flags and thresholds.
   */
  function PutPreferences(t: Tables, accountId: int, body: NotificationPreference): Result<Answered>
  {
    if accountId !in t.accounts then Err(ACCOUNT_NOT_FOUND)
    else
      var updated := Copied(PreferenceFor(t, accountId), body);
      var w := WithPreference(t, accountId);
      Ok(Answered(w.(preferences := w.preferences[accountId := updated]), updated))
  }

  /**
   * An update fails for an unknown account; otherwise the stored record is
   * the body with the path's account and the record's existing (or new)
   * id, and no other account's record changes.
   */
  lemma PutPreferencesEffect(t: Tables, accountId: int, body: NotificationPreference)
    requires Consistent(t)
    ensures PutPreferences(t, accountId, body).Err? <==> accountId !in t.accounts
    ensures PutPreferences(t, accountId, body).Ok? ==>
              var r := PutPreferences(t, accountId, body).value;
              Consistent(r.tables)
              && r.preference == body.(id := PreferenceFor(t, accountId).id, account := accountId)
              && (accountId in t.preferences ==> r.preference.id == t.preferences[accountId].id)
              && r.tables.preferences == t.preferences[accountId := r.preference]
              && r.tables.accounts == t.accounts && r.tables.notifications == t.notifications
  {
  }

  /** Sending the same update twice leaves the same stored record as sending it once. */
  lemma PutIdempotent(t: Tables, accountId: int, body: NotificationPreference)
    requires PutPreferences(t, accountId, body).Ok?
    ensures var once := PutPreferences(t, accountId, body).value;
            PutPreferences(once.tables, accountId, body) == Ok(once)
  {
    var once := PutPreferences(t, accountId, body).value;
    WithPreferenceIdempotent(t, accountId);
    assert accountId in once.tables.preferences;
    assert WithPreference(once.tables, accountId) == once.tables;
  }

  /** A read after an update returns what the update stored. */
  lemma GetAfterPut(t: Tables, accountId: int, body: NotificationPreference)
    requires PutPreferences(t, accountId, body).Ok?
    ensures var put := PutPreferences(t, accountId, body).value;
            GetPreferences(put.tables, accountId) == Ok(Answered(put.tables, put.preference))
  {
  }

  method GetPreferencesHandler(db: Db, accountId: int) returns (r: Result<NotificationPreference>)
    requires db.Valid()
    modifies db
    ensures db.Valid()
    ensures GetPreferences(old(db.State()), accountId).Err? ==>
              r == Err(ACCOUNT_NOT_FOUND) && db.State() == old(db.State())
    ensures GetPreferences(old(db.State()), accountId).Ok? ==>
              r == Ok(GetPreferences(old(db.State()), accountId).value.preference)
              && db.State() == GetPreferences(old(db.State()), accountId).value.tables
  {
    if accountId !in db.accounts {
      return Err(ACCOUNT_NOT_FOUND);
    }
    if accountId in db.preferences {
      return Ok(db.preferences[accountId]);
    }
    var newPrefs := DefaultPreference(db.nextPreferenceId, accountId);
    db.preferences := db.preferences[accountId := newPrefs];
    db.nextPreferenceId := db.nextPreferenceId + 1;
    r := Ok(newPrefs);
  }

  method UpdatePreferencesHandler(db: Db, accountId: int, body: NotificationPreference)
    returns (r: Result<NotificationPreference>)
    requires db.Valid()
    modifies db
    ensures db.Valid()
    ensures PutPreferences(old(db.State()), accountId, body).Err? ==>
              r == Err(ACCOUNT_NOT_FOUND) && db.State() == old(db.State())
    ensures PutPreferences(old(db.State()), accountId, body).Ok? ==>
              r == Ok(PutPreferences(old(db.State()), accountId, body).value.preference)
              && db.State() == PutPreferences(old(db.State()), accountId, body).value.tables
  {
    if accountId !in db.accounts {
      return Err(ACCOUNT_NOT_FOUND);
    }
    PutPreferencesEffect(db.State(), accountId, body);
    var existing: NotificationPreference;
    if accountId in db.preferences {
      existing := db.preferences[accountId];
    } else {
      existing := DefaultPreference(db.nextPreferenceId, accountId);
      db.nextPreferenceId := db.nextPreferenceId + 1;
    }
    existing := CopyFields(existing, body);
    db.preferences := db.preferences[accountId := existing];
    r := Ok(existing);
  }

  /** The eleven setter calls of the update, one field at a time. */
  method CopyFields(existing: NotificationPreference, body: NotificationPreference) returns (p: NotificationPreference)
    ensures p == Copied(existing, body)
  {
    p := existing;
    p := p.(enableRealTimeNotifications := body.enableRealTimeNotifications);
    p := p.(enableEmailNotifications := body.enableEmailNotifications);
    p := p.(emailForTransactions := body.emailForTransactions);
    p := p.(emailForSecurity := body.emailForSecurity);
    p := p.(emailForSystem := body.emailForSystem);
    p := p.(emailTransactionThreshold := body.emailTransactionThreshold);
    p := p.(enableSmsNotifications := body.enableSmsNotifications);
    p := p.(smsForTransactions := body.smsForTransactions);
    p := p.(smsForSecurity := body.smsForSecurity);
    p := p.(smsForSystem := body.smsForSystem);
    p := p.(smsTransactionThreshold := body.smsTransactionThreshold);
  }
}
