/**
 * How the account screens show accounts: the total balance, the masked
 * account number, the type label and badge, and the three screens' fetch
 * state (Dashboard, the accounts list component and the Accounts page).
 */
module AccountDisplay {
  import opened Wrappers
  import Sequences
  import Text

  /** An account as the browser receives it; any field may be missing from the JSON. */
  datatype ClientAccount = ClientAccount(
    id: int,
    accountType: Option<string>,
    accountNumber: Option<string>,
    balance: Option<int>)

  /** `account.balance || 0`. */
  function Balance(a: ClientAccount): int
  {
    a.balance.GetOr(0)
  }

  predicate HasBalance(a: ClientAccount)
  {
    a.balance.Some?
  }

  /** `accounts.reduce((sum, account) => sum + (account.balance || 0), 0)`. */
  function TotalBalance(accounts: seq<ClientAccount>): int
  {
    Sequences.SumOf(accounts, Balance)
  }

  /**
   * Accounts without a balance add nothing: the total is the sum over the
   * accounts that have one.
   */
  lemma {:induction false} TotalBalanceIgnoresMissing(accounts: seq<ClientAccount>)
    ensures TotalBalance(accounts) == TotalBalance(Sequences.Filter(accounts, HasBalance))
    ensures (forall i :: 0 <= i < |accounts| ==> !HasBalance(accounts[i])) ==> TotalBalance(accounts) == 0
  {
    if accounts != [] {
      TotalBalanceIgnoresMissing(accounts[1..]);
      var rest := Sequences.Filter(accounts[1..], HasBalance);
      if HasBalance(accounts[0]) {
        assert Sequences.Filter(accounts, HasBalance) == [accounts[0]] + rest;
        assert ([accounts[0]] + rest)[1..] == rest;
      } else {
        assert Sequences.Filter(accounts, HasBalance) == rest;
      }
    }
  }

  /** The total of two lists is the sum of their totals. */
  lemma {:induction false} TotalBalanceAppend(a: seq<ClientAccount>, b: seq<ClientAccount>)
    ensures TotalBalance(a + b) == TotalBalance(a) + TotalBalance(b)
  {
    Sequences.SumOfAppend(a, b, Balance);
  }

  /** With no negative balance, the total is at least each account's balance. */
  lemma {:induction false} TotalBalanceBounds(accounts: seq<ClientAccount>, i: int)
    requires forall k :: 0 <= k < |accounts| ==> Balance(accounts[k]) >= 0
    requires 0 <= i < |accounts|
    ensures 0 <= Balance(accounts[i]) <= TotalBalance(accounts)
    decreases |accounts|
  {
    if i > 0 {
      TotalBalanceBounds(accounts[1..], i - 1);
    } else if |accounts| > 1 {
      TotalBalanceBounds(accounts[1..], 0);
    } else {
      assert accounts[1..] == [];
      assert TotalBalance(accounts) == Balance(accounts[0]) + TotalBalance(accounts[1..]);
    }
  }

  const NO_ACCOUNT_NUMBER: string := "No account number"
  const MASK: string := "****"

  /**
   * `accountNumber ? "****" + accountNumber.slice(-4) : "No account number"`;
   * the empty string is falsy, so it reads as missing.
   */
  function MaskedNumber(accountNumber: Option<string>): (r: string)
  {
    if accountNumber.None? || accountNumber.value == "" then NO_ACCOUNT_NUMBER
    else MASK + Text.TakeLast(accountNumber.value, 4)
  }

  /**
   * A missing or empty number reads "No account number"; a present one is
   * four asterisks followed by its last four characters, or all of it when
   * shorter, so no more than four characters of it are ever shown.
   */
  lemma MaskedNumberShape(accountNumber: Option<string>)
    ensures accountNumber.None? || accountNumber == Some("") ==> MaskedNumber(accountNumber) == NO_ACCOUNT_NUMBER
    ensures accountNumber.Some? && accountNumber.value != "" ==>
              var n := accountNumber.value;
              var r := MaskedNumber(accountNumber);
              var shown := if |n| < 4 then |n| else 4;
              |r| == 4 + shown && r[..4] == MASK && r[4..] == n[|n| - shown..]
  {
  }

  const ACCOUNT: string := "Account"

  /** `account.accountType || 'Account'`. */
  function TypeLabel(accountType: Option<string>): (r: string)
    ensures r == ACCOUNT <==> accountType.None? || accountType == Some("") || accountType == Some(ACCOUNT)
    ensures accountType.Some? && accountType.value != "" ==> r == accountType.value
  {
    if accountType.None? || accountType.value == "" then ACCOUNT else accountType.value
  }

  /** The badge classes of an account type; unknown types get the default gray. */
  function AccountTypeStyle(accountType: string): (r: string)
    ensures accountType == "CHECKING" <==> r == "bg-green-100 text-green-800"
    ensures accountType == "SAVINGS" <==> r == "bg-blue-100 text-blue-800"
    ensures accountType == "CREDIT" <==> r == "bg-purple-100 text-purple-800"
    ensures accountType !in {"CHECKING", "SAVINGS", "CREDIT"} <==> r == "bg-gray-100 text-gray-800"
  {
    match accountType
    case "CHECKING" => "bg-green-100 text-green-800"
    case "SAVINGS" => "bg-blue-100 text-blue-800"
    case "CREDIT" => "bg-purple-100 text-purple-800"
    case _ => "bg-gray-100 text-gray-800"
  }

  /**
   * `type.charAt(0).toUpperCase() + type.slice(1).toLowerCase()`, where a
   * missing type defaults to the empty string.
   */
  function FormatAccountType(accountType: Option<string>): string
  {
    var s := accountType.GetOr("");
    if s == "" then "" else [Text.UpperChar(s[0])] + Text.ToLower(s[1..])
  }

  /**
   * The label keeps the length: the first character upper-cased, the rest
   * lower-cased; a missing or empty type gives the empty label.
   */
  lemma FormatAccountTypeShape(accountType: Option<string>)
    ensures accountType.None? || accountType == Some("") ==> FormatAccountType(accountType) == ""
    ensures accountType.Some? && accountType.value != "" ==>
              var s := accountType.value;
              var r := FormatAccountType(accountType);
              |r| == |s| && r[0] == Text.UpperChar(s[0]) && !('a' <= r[0] <= 'z')
              && forall i :: 1 <= i < |s| ==> r[i] == Text.LowerChar(s[i]) && !('A' <= r[i] <= 'Z')
  {
  }

  /** Formatting a formatted label changes nothing. */
  lemma FormatAccountTypeIdempotent(accountType: Option<string>)
    ensures FormatAccountType(Some(FormatAccountType(accountType))) == FormatAccountType(accountType)
  {
    var r := FormatAccountType(accountType);
    if r != "" {
      var s := accountType.value;
      assert r[1..] == Text.ToLower(s[1..]);
      Text.ToLowerIdempotent(s[1..]);
      assert Text.UpperChar(r[0]) == r[0];
    }
  }

  /**
   * The list component's number: four bullets then `accountNumber?.slice(-4)`,
   * the last four characters (all of them when shorter), or nothing when
   * the number is missing.
   */
  function BulletNumber(accountNumber: Option<string>): (r: string)
    ensures 4 <= |r| <= 8 && r[..4] == "\U{2022}\U{2022}\U{2022}\U{2022}"
    ensures accountNumber.None? ==> |r| == 4
    ensures accountNumber.Some? ==>
              var n := accountNumber.value;
              var shown := if |n| < 4 then |n| else 4;
              |r| == 4 + shown && r[4..] == n[|n| - shown..]
  {
    "\U{2022}\U{2022}\U{2022}\U{2022}" + (if accountNumber.None? then "" else Text.TakeLast(accountNumber.value, 4))
  }
}

/** The fetch state of the three account screens and which view each shows. */
module AccountScreens {
  import opened Wrappers
  import opened AccountDisplay

  const LOAD_FAILED: string := "Failed to load accounts"

  /** How `getAccounts()` settled: it threw, or answered with `data`, which may be missing. */
  datatype Fetch = Threw | Answered(data: Option<seq<ClientAccount>>)

  datatype ScreenState = ScreenState(accounts: seq<ClientAccount>, loading: bool, error: Option<string>)

  const INITIAL: ScreenState := ScreenState([], true, None)

  /** What a screen renders. */
  datatype View = ErrorView(message: string) | LoadingView | NoAccountsView | AccountsView(accounts: seq<ClientAccount>)

  /** Dashboard: `setAccounts(response.data || [])`, the error on a throw, loading ends either way. */
  function DashboardFetched(s: ScreenState, f: Fetch): ScreenState
  {
    match f
    case Threw => s.(error := Some(LOAD_FAILED), loading := false)
    case Answered(data) => s.(accounts := data.GetOr([]), loading := false)
  }

  /** Dashboard renders the error first, then the spinner, then the accounts. */
  function DashboardView(s: ScreenState): View
  {
    if s.error.Some? && s.error.value != "" then ErrorView(s.error.value)
    else if s.loading then LoadingView
    else AccountsView(s.accounts)
  }

  /** AccountsList: accounts replaced only when `response.data` is present. */
  function ListFetched(s: ScreenState, f: Fetch): ScreenState
  {
    match f
    case Threw => s.(error := Some(LOAD_FAILED), loading := false)
    case Answered(data) => if data.Some? then s.(accounts := data.value, loading := false) else s.(loading := false)
  }

  /** AccountsList renders the spinner first, then the error, then the list or "No accounts found". */
  function ListView(s: ScreenState): View
  {
    if s.loading then LoadingView
    else if s.error.Some? && s.error.value != "" then ErrorView(s.error.value)
    else if s.accounts == [] then NoAccountsView
    else AccountsView(s.accounts)
  }

  /** The Accounts page has no catch: a throw only ends loading. */
  function PageFetched(s: ScreenState, f: Fetch): ScreenState
  {
    match f
    case Threw => s.(loading := false)
    case Answered(data) => s.(accounts := data.GetOr([]), loading := false)
  }

  function PageView(s: ScreenState): View
  {
    if s.loading then LoadingView else AccountsView(s.accounts)
  }

  /** Every screen stops loading however its fetch settles. */
  lemma LoadingEnds(s: ScreenState, f: Fetch)
    ensures !DashboardFetched(s, f).loading && !ListFetched(s, f).loading && !PageFetched(s, f).loading
    ensures f.Threw? ==> PageFetched(s, f) == s.(loading := false)
  {
  }

  /**
   * On the Dashboard a failed fetch shows "Failed to load accounts" with no
   * accounts, and an error wins over the spinner whatever `loading` says.
   */
  lemma DashboardErrorFirst(s: ScreenState)
    ensures DashboardFetched(INITIAL, Threw).accounts == []
    ensures DashboardView(DashboardFetched(INITIAL, Threw)) == ErrorView(LOAD_FAILED)
    ensures s.error == Some(LOAD_FAILED) ==> DashboardView(s) == ErrorView(LOAD_FAILED)
    ensures s.loading && s.error.None? ==> DashboardView(s) == LoadingView
  {
  }

  /**
   * The list component checks the spinner first, so with both set it
   * shows the spinner; after any fetch it shows the error, the empty
   * message or the accounts. A response without data keeps the accounts.
   */
  lemma ListSpinnerFirst(s: ScreenState, f: Fetch)
    ensures s.loading ==> ListView(s) == LoadingView
    ensures f.Threw? ==> ListView(ListFetched(s, f)) == ErrorView(LOAD_FAILED)
    ensures f == Answered(None) ==> ListFetched(s, f).accounts == s.accounts
    ensures f.Answered? && f.data.Some? ==> ListFetched(s, f).accounts == f.data.value
  {
  }

  /** The Dashboard component: its state variables as fields. */
  class Dashboard {
    var accounts: seq<ClientAccount>
    var loading: bool
    var error: Option<string>

    function State(): ScreenState
      reads this
    {
      ScreenState(accounts, loading, error)
    }

    constructor()
      ensures State() == INITIAL
    {
      accounts := [];
      loading := true;
      error := None;
    }

    method FetchSettled(f: Fetch)
      modifies this
      ensures State() == DashboardFetched(old(State()), f)
    {
      if f.Threw? {
        error := Some(LOAD_FAILED);
      } else {
        accounts := f.data.GetOr([]);
      }
      loading := false;
    }
  }

  /** The accounts list component. */
  class AccountsList {
    var accounts: seq<ClientAccount>
    var loading: bool
    var error: Option<string>

    function State(): ScreenState
      reads this
    {
      ScreenState(accounts, loading, error)
    }

    constructor()
      ensures State() == INITIAL
    {
      accounts := [];
      loading := true;
      error := None;
    }

    method FetchSettled(f: Fetch)
      modifies this
      ensures State() == ListFetched(old(State()), f)
    {
      if f.Threw? {
        error := Some(LOAD_FAILED);
      } else if f.data.Some? {
        accounts := f.data.value;
      }
      loading := false;
    }
  }

  /** The Accounts page; it keeps no error. */
  class AccountsPage {
    var accounts: seq<ClientAccount>
    var loading: bool

    function State(): ScreenState
      reads this
    {
      ScreenState(accounts, loading, None)
    }

    constructor()
      ensures State() == INITIAL
    {
      accounts := [];
      loading := true;
    }

    method FetchSettled(f: Fetch)
      modifies this
      ensures State() == PageFetched(old(State()), f)
    {
      if f.Answered? {
        accounts := f.data.GetOr([]);
      }
      loading := false;
    }
  }
}
