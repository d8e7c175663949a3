/**
 * The transaction-history page: eight text filters, the query string of the
 * page request, Previous / Next paging, the dispute dialog and the status
 * and category badge colours.
 */
module TransactionHistory {
  import opened Wrappers
  import Text

  /** A transaction row, with the fields the page's rules read. */
  datatype ClientTransaction = ClientTransaction(
    id: int,
    amount: int,
    status: string,
    category: Option<string>,
    isDisputed: bool)

  /** The filter form; `transactionType` is the filter sent as `type`. */
  datatype Filters = Filters(
    search: string,
    transactionType: string,
    status: string,
    category: string,
    startDate: string,
    endDate: string,
    minAmount: string,
    maxAmount: string)

  const NO_FILTERS: Filters := Filters("", "", "", "", "", "", "", "")

  datatype FilterKey = Search | Type | Status | Category | StartDate | EndDate | MinAmount | MaxAmount

  /** The keys in the order the filter object lists them, which is the order they are appended. */
  const KEYS: seq<FilterKey> := [Search, Type, Status, Category, StartDate, EndDate, MinAmount, MaxAmount]

  function KeyName(k: FilterKey): string
  {
    match k
    case Search => "search"
    case Type => "type"
    case Status => "status"
    case Category => "category"
    case StartDate => "startDate"
    case EndDate => "endDate"
    case MinAmount => "minAmount"
    case MaxAmount => "maxAmount"
  }

  function Value(f: Filters, k: FilterKey): string
  {
    match k
    case Search => f.search
    case Type => f.transactionType
    case Status => f.status
    case Category => f.category
    case StartDate => f.startDate
    case EndDate => f.endDate
    case MinAmount => f.minAmount
    case MaxAmount => f.maxAmount
  }

  /** `{ ...prev, [key]: value }`. */
  function With(f: Filters, k: FilterKey, v: string): (r: Filters)
    ensures Value(r, k) == v
    ensures forall j :: j != k ==> Value(r, j) == Value(f, j)
  {
    match k
    case Search => f.(search := v)
    case Type => f.(transactionType := v)
    case Status => f.(status := v)
    case Category => f.(category := v)
    case StartDate => f.(startDate := v)
    case EndDate => f.(endDate := v)
    case MinAmount => f.(minAmount := v)
    case MaxAmount => f.(maxAmount := v)
  }

  /** Every key is listed once, and no two keys share a name. */
  lemma KeysComplete(k: FilterKey, j: FilterKey)
    ensures k in KEYS
    ensures KeyName(k) == KeyName(j) ==> k == j
    ensures KeyName(k) != "page" && KeyName(k) != "size" && KeyName(k) != "sort"
  {
  }

  type Param = (string, string)

  const PAGE_SIZE: string := "10"
  const SORT: string := "timestamp,desc"

  /** The three parameters every request carries. */
  function BaseParams(page: int): seq<Param>
  {
    [("page", Text.IntToString(page)), ("size", PAGE_SIZE), ("sort", SORT)]
  }

  /** One parameter per key of `keys`, in order, for each key whose value is not the empty string. */
  function FilterParams(f: Filters, keys: seq<FilterKey>): seq<Param>
  {
    if keys == [] then []
    else (if Value(f, keys[0]) != "" then [(KeyName(keys[0]), Value(f, keys[0]))] else [])
         + FilterParams(f, keys[1..])
  }

  /** The parameters of the page request. */
  function QueryParams(page: int, f: Filters): seq<Param>
  {
    BaseParams(page) + FilterParams(f, KEYS)
  }

  lemma {:induction false} FilterParamsAppend(f: Filters, a: seq<FilterKey>, b: seq<FilterKey>)
    ensures FilterParams(f, a + b) == FilterParams(f, a) + FilterParams(f, b)
  {
    if a == [] {
      assert a + b == b;
    } else {
      FilterParamsAppend(f, a[1..], b);
      assert (a + b)[0] == a[0];
      assert (a + b)[1..] == a[1..] + b;
    }
  }

  /**
   * A key's parameter is present exactly when the key is listed and its
   * value is not empty, and every parameter is some listed key's name with
   * its non-empty value.
   */
  lemma {:induction false} FilterParamsMembers(f: Filters, keys: seq<FilterKey>, k: FilterKey)
    ensures (KeyName(k), Value(f, k)) in FilterParams(f, keys) <==> k in keys && Value(f, k) != ""
    ensures forall p :: p in FilterParams(f, keys) ==>
              p.1 != "" && exists j :: j in keys && p == (KeyName(j), Value(f, j))
  {
    if keys != [] {
      FilterParamsMembers(f, keys[1..], k);
      var rest := FilterParams(f, keys[1..]);
      forall p | p in FilterParams(f, keys)
        ensures p.1 != "" && exists j :: j in keys && p == (KeyName(j), Value(f, j))
      {
        if p in rest {
          var j :| j in keys[1..] && p == (KeyName(j), Value(f, j));
          assert j in keys;
        } else {
          assert p == (KeyName(keys[0]), Value(f, keys[0]));
        }
      }
      if (KeyName(k), Value(f, k)) in rest {
        var j :| j in keys[1..] && (KeyName(k), Value(f, k)) == (KeyName(j), Value(f, j));
        KeysComplete(k, j);
      }
      KeysComplete(k, keys[0]);
    }
  }

  /**
   * The request always starts with page, size "10" and sort
   * "timestamp,desc", and then carries exactly the non-empty filters, each
   * under its own name.
   */
  lemma QueryParamsShape(page: int, f: Filters, k: FilterKey)
    ensures var q := QueryParams(page, f);
            |q| >= 3 && q[..3] == BaseParams(page)
            && ((KeyName(k), Value(f, k)) in q[3..] <==> Value(f, k) != "")
            && forall p :: p in q[3..] ==> p.1 != "" && exists j :: p == (KeyName(j), Value(f, j))
  {
    FilterParamsMembers(f, KEYS, k);
    KeysComplete(k, k);
    var q := QueryParams(page, f);
    assert q[3..] == FilterParams(f, KEYS);
  }

  /** With no filter set, the request carries only the three fixed parameters. */
  lemma {:induction false} NoFiltersNoParams(page: int, keys: seq<FilterKey>)
    ensures FilterParams(NO_FILTERS, keys) == []
  {
    if keys != [] {
      NoFiltersNoParams(page, keys[1..]);
    }
  }

  /** `new URLSearchParams({...})` followed by the `forEach` over the filter entries. */
  method BuildParams(page: int, f: Filters) returns (params: seq<Param>)
    ensures params == QueryParams(page, f)
  {
    params := [("page", Text.IntToString(page)), ("size", PAGE_SIZE), ("sort", SORT)];
    for i := 0 to |KEYS|
      invariant params == BaseParams(page) + FilterParams(f, KEYS[..i])
    {
      var key := KEYS[i];
      var value := Value(f, key);
      FilterParamsAppend(f, KEYS[..i], [key]);
      assert KEYS[..i + 1] == KEYS[..i] + [key];
      if value != "" {
        params := params + [(KeyName(key), value)];
      }
    }
    assert KEYS[..|KEYS|] == KEYS;
  }

  // ---------------------------------------------------------------- paging

  /** Previous: `Math.max(0, currentPage - 1)`. */
  function PrevPage(page: int): int
  {
    if page - 1 > 0 then page - 1 else 0
  }

  function PrevDisabled(page: int): bool
  {
    page == 0
  }

  /** Next: `Math.min(totalPages - 1, currentPage + 1)`. */
  function NextPage(page: int, totalPages: int): int
  {
    if totalPages - 1 < page + 1 then totalPages - 1 else page + 1
  }

  function NextDisabled(page: int, totalPages: int): bool
  {
    page >= totalPages - 1
  }

  /**
   * Previous never leads below page 0; an enabled Next leads to the next
   * page, which is at most the last one; from a page in range, an enabled
   * button keeps the page in range.
   */
  lemma PagingBounds(page: int, totalPages: int)
    ensures PrevPage(page) >= 0
    ensures !PrevDisabled(page) && page > 0 ==> PrevPage(page) == page - 1
    ensures !NextDisabled(page, totalPages) ==>
              NextPage(page, totalPages) == page + 1 && NextPage(page, totalPages) <= totalPages - 1
    ensures 0 <= page < totalPages && !NextDisabled(page, totalPages) ==>
              0 <= NextPage(page, totalPages) < totalPages
    ensures 0 <= page < totalPages && !PrevDisabled(page) ==> 0 <= PrevPage(page) < totalPages
  {
  }

  /** Next then Previous, and Previous then Next, come back to the same page. */
  lemma PagingRoundTrip(page: int, totalPages: int)
    ensures page >= 0 && !NextDisabled(page, totalPages) ==> PrevPage(NextPage(page, totalPages)) == page
    ensures page > 0 && page <= totalPages - 1 ==> NextPage(PrevPage(page), totalPages) == page
  {
  }

  // ---------------------------------------------------------------- disputes and colours

  /** The Dispute action is shown only for a completed transaction not yet disputed. */
  function DisputeOffered(t: ClientTransaction): bool
  {
    !t.isDisputed && t.status == "COMPLETED"
  }

  /**
   * Only completed rows offer the action, and a row the server has marked
   * disputed (flag set, status DISPUTED) no longer offers it.
   */
  lemma DisputeOfferedOnce(t: ClientTransaction)
    ensures DisputeOffered(t) ==> t.status == "COMPLETED" && StatusColor(t.status) != GRAY
    ensures !DisputeOffered(t.(isDisputed := true, status := "DISPUTED"))
    ensures t.status != "COMPLETED" ==> !DisputeOffered(t)
  {
  }

  datatype DisputeRequest = DisputeRequest(transactionId: int, reason: string)

  /**
   * `submitDispute`: nothing is sent without a selected transaction or with
   * a reason that trims to nothing; otherwise the reason goes as typed.
   */
  function DisputeSent(selected: Option<ClientTransaction>, reason: string): (r: Option<DisputeRequest>)
    ensures r.None? <==> selected.None? || Text.IsBlank(reason)
    ensures r.Some? ==> r.value == DisputeRequest(selected.value.id, reason)
  {
    if selected.None? || Text.IsBlank(reason) then None
    else Some(DisputeRequest(selected.value.id, reason))
  }

  const GRAY: string := "bg-gray-100 text-gray-800"

  function StatusColor(status: string): (r: string)
    ensures status !in {"COMPLETED", "PENDING", "FAILED", "FLAGGED", "DISPUTED"} ==> r == GRAY
    ensures status in {"COMPLETED", "PENDING", "FAILED", "FLAGGED", "DISPUTED"} ==> r != GRAY
  {
    match status
    case "COMPLETED" => "bg-green-100 text-green-800"
    case "PENDING" => "bg-yellow-100 text-yellow-800"
    case "FAILED" => "bg-red-100 text-red-800"
    case "FLAGGED" => "bg-orange-100 text-orange-800"
    case "DISPUTED" => "bg-purple-100 text-purple-800"
    case _ => GRAY
  }

  const CATEGORY_COLORS: map<string, string> := map[
    "GROCERIES" := "bg-blue-100 text-blue-800",
    "DINING" := "bg-orange-100 text-orange-800",
    "GAS" := "bg-yellow-100 text-yellow-800",
    "SHOPPING" := "bg-purple-100 text-purple-800",
    "BILLS" := "bg-red-100 text-red-800",
    "ENTERTAINMENT" := "bg-pink-100 text-pink-800",
    "TRANSPORTATION" := "bg-indigo-100 text-indigo-800",
    "TRANSFER" := "bg-green-100 text-green-800",
    "ATM" := GRAY,
    "OTHER" := GRAY]

  /** `colors[category] || gray`. */
  function CategoryColor(category: string): (r: string)
    ensures category !in CATEGORY_COLORS ==> r == GRAY
    ensures category in CATEGORY_COLORS ==> r == CATEGORY_COLORS[category]
  {
    if category in CATEGORY_COLORS then CATEGORY_COLORS[category] else GRAY
  }

  /** Only ATM, OTHER and unknown categories are gray. */
  lemma CategoryGray(category: string)
    ensures CategoryColor(category) == GRAY <==> category == "ATM" || category == "OTHER" || category !in CATEGORY_COLORS
  {
  }

  // ---------------------------------------------------------------- the page

  /** The server's page of results; each part may be missing from the response. */
  datatype PageData = PageData(content: Option<seq<ClientTransaction>>, totalPages: Option<int>, totalElements: Option<int>)

  datatype HistoryState = HistoryState(
    transactions: seq<ClientTransaction>,
    loading: bool,
    currentPage: int,
    totalPages: int,
    totalElements: int,
    selected: Option<ClientTransaction>,
    showDisputeModal: bool,
    disputeReason: string,
    filters: Filters)

  const INITIAL: HistoryState := HistoryState([], true, 0, 0, 0, None, false, "", NO_FILTERS)

  function FilterChanged(s: HistoryState, k: FilterKey, v: string): HistoryState
  {
    s.(filters := With(s.filters, k, v), currentPage := 0)
  }

  function Cleared(s: HistoryState): HistoryState
  {
    s.(filters := NO_FILTERS, currentPage := 0)
  }

  /**
   * A filter change sets that one filter and goes back to the first page;
   * clearing empties all eight and goes back to the first page, after
   * which the request carries no filter at all.
   */
  lemma FilterChangeEffect(s: HistoryState, k: FilterKey, v: string)
    ensures var r := FilterChanged(s, k, v);
            r.currentPage == 0 && Value(r.filters, k) == v
            && (forall j :: j != k ==> Value(r.filters, j) == Value(s.filters, j))
            && r.(filters := s.filters, currentPage := s.currentPage) == s
    ensures var r := Cleared(s);
            r.currentPage == 0 && (forall j :: Value(r.filters, j) == "")
            && QueryParams(r.currentPage, r.filters) == BaseParams(0)
  {
    NoFiltersNoParams(0, KEYS);
  }

  /** The fetch settling: missing parts of the response read as an empty list and zero counts. */
  function FetchSettled(s: HistoryState, response: Option<PageData>): (r: HistoryState)
    ensures !r.loading
    ensures response.None? ==> r == s.(loading := false)
    ensures response.Some? && response.value.content.None? ==> r.transactions == []
    ensures response.Some? && response.value.totalPages.None? ==> r.totalPages == 0
  {
    if response.None? then s.(loading := false)
    else
      var d := response.value;
      s.(transactions := d.content.GetOr([]),
         totalPages := d.totalPages.GetOr(0),
         totalElements := d.totalElements.GetOr(0),
         loading := false)
  }

  function DisputeOpened(s: HistoryState, t: ClientTransaction): HistoryState
  {
    s.(selected := Some(t), showDisputeModal := true)
  }

  /** The state after `submitDispute`, the request it sent, and whether the list is fetched again. */
  datatype DisputeOutcome = DisputeOutcome(state: HistoryState, request: Option<DisputeRequest>, refetch: bool)

  /** `ok` when the server accepted the dispute. */
  function DisputeSubmitted(s: HistoryState, ok: bool): DisputeOutcome
  {
    var request := DisputeSent(s.selected, s.disputeReason);
    if request.None? then DisputeOutcome(s, None, false)
    else if ok then DisputeOutcome(s.(showDisputeModal := false, disputeReason := "", selected := None), request, true)
    else DisputeOutcome(s, request, false)
  }

  /**
   * Without a selection or with a blank reason nothing is sent and nothing
   * changes; an accepted dispute closes the dialog, clears the reason and
   * the selection and fetches the list again; a refused one changes nothing.
   */
  lemma DisputeSubmittedEffect(s: HistoryState, ok: bool)
    ensures var o := DisputeSubmitted(s, ok);
            (s.selected.None? || Text.IsBlank(s.disputeReason) ==> o == DisputeOutcome(s, None, false))
            && (o.request.Some? ==> o.request.value.transactionId == s.selected.value.id
                                    && o.request.value.reason == s.disputeReason)
            && (o.request.Some? && ok ==>
                  !o.state.showDisputeModal && o.state.disputeReason == "" && o.state.selected.None? && o.refetch)
            && (!ok ==> o.state == s && !o.refetch)
  {
  }

  /** The page: its state variables as fields, its handlers as methods. */
  class HistoryPage {
    var transactions: seq<ClientTransaction>
    var loading: bool
    var currentPage: int
    var totalPages: int
    var totalElements: int
    var selected: Option<ClientTransaction>
    var showDisputeModal: bool
    var disputeReason: string
    var filters: Filters

    function State(): HistoryState
      reads this
    {
      HistoryState(transactions, loading, currentPage, totalPages, totalElements,
                   selected, showDisputeModal, disputeReason, filters)
    }

    constructor()
      ensures State() == INITIAL
    {
      transactions := [];
      loading := true;
      currentPage := 0;
      totalPages := 0;
      totalElements := 0;
      selected := None;
      showDisputeModal := false;
      disputeReason := "";
      filters := NO_FILTERS;
    }

    /** `fetchTransactions` up to the request: loading, and the parameters sent. */
    method FetchStart() returns (params: seq<Param>)
      modifies this
      ensures params == QueryParams(old(currentPage), old(filters))
      ensures State() == old(State()).(loading := true)
    {
      loading := true;
      params := BuildParams(currentPage, filters);
    }

    method FetchDone(response: Option<PageData>)
      modifies this
      ensures State() == FetchSettled(old(State()), response)
    {
      if response.Some? {
        var d := response.value;
        transactions := d.content.GetOr([]);
        totalPages := d.totalPages.GetOr(0);
        totalElements := d.totalElements.GetOr(0);
      }
      loading := false;
    }

    method FilterChange(k: FilterKey, v: string)
      modifies this
      ensures State() == FilterChanged(old(State()), k, v)
    {
      filters := With(filters, k, v);
      currentPage := 0;
    }

    method ClearFilters()
      modifies this
      ensures State() == Cleared(old(State()))
    {
      filters := NO_FILTERS;
      currentPage := 0;
    }

    method Previous()
      modifies this
      ensures State() == old(State()).(currentPage := PrevPage(old(currentPage)))
    {
      currentPage := if 0 > currentPage - 1 then 0 else currentPage - 1;
    }

    method Next()
      modifies this
      ensures State() == old(State()).(currentPage := NextPage(old(currentPage), old(totalPages)))
    {
      currentPage := if totalPages - 1 < currentPage + 1 then totalPages - 1 else currentPage + 1;
    }

    method OpenDispute(t: ClientTransaction)
      modifies this
      ensures State() == DisputeOpened(old(State()), t)
    {
      selected := Some(t);
      showDisputeModal := true;
    }

    method SubmitDispute(ok: bool) returns (request: Option<DisputeRequest>, refetch: bool)
      modifies this
      ensures DisputeOutcome(State(), request, refetch) == DisputeSubmitted(old(State()), ok)
    {
      if selected.None? || Text.IsBlank(disputeReason) {
        return None, false;
      }
      request := Some(DisputeRequest(selected.value.id, disputeReason));
      refetch := false;
      if ok {
        showDisputeModal := false;
        disputeReason := "";
        selected := None;
        refetch := true;
      }
    }
  }
}
