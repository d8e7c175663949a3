/**
 * The queries of the transaction repository, over the `transactions` table
 * in table order. SQL `NULL` is `None`: a comparison with a `NULL` column is
 * never true, and `SUM`/`AVG` over no rows is `NULL`.
 */
module TransactionRepository {
  import opened Wrappers
  import opened Entities
  import Text
  import opened Sequences

  /** `t.sender = :account OR t.recipient = :account` */
  predicate Involves(t: Transaction, account: int)
  {
    t.sender == account || t.recipient == Some(account)
  }

  /** `ORDER BY t.timestamp DESC`; rows with equal timestamps keep table order. */
  function NewestFirst(ts: seq<Transaction>): (r: seq<Transaction>)
    ensures multiset(r) == multiset(ts)
    ensures forall t :: t in r <==> t in ts
    ensures forall i, j :: 0 <= i < j < |r| ==> r[i].timestamp >= r[j].timestamp
  {
    SortBy(ts, (a: Transaction, b: Transaction) => a.timestamp >= b.timestamp)
  }

  /** The row with the given primary key, as an index into the table. */
  function FindById(ts: seq<Transaction>, id: int): (r: Option<nat>)
    ensures r.Some? ==> r.value < |ts| && ts[r.value].id == Some(id)
    ensures r.None? <==> forall i :: 0 <= i < |ts| ==> ts[i].id != Some(id)
  {
    if ts == [] then None
    else if ts[0].id == Some(id) then Some(0)
    else
      match FindById(ts[1..], id)
      case None => None
      case Some(i) => Some(i + 1)
  }

  // ---------------------------------------------------------------- derived queries

  /** `findBySenderAndTimestampAfter`: the sender's rows strictly after `after`. */
  function FindBySenderAndTimestampAfter(ts: seq<Transaction>, sender: int, after: Instant): (r: seq<Transaction>)
    ensures forall t :: t in r <==> t in ts && t.sender == sender && t.timestamp > after
  {
    Filter(ts, (t: Transaction) => t.sender == sender && t.timestamp > after)
  }

  /** `findByStatus` */
  function FindByStatus(ts: seq<Transaction>, status: string): (r: seq<Transaction>)
    ensures forall t :: t in r <==> t in ts && t.status == status
  {
    Filter(ts, (t: Transaction) => t.status == status)
  }

  /** `SELECT AVG(t.amount) ... WHERE t.sender = ?1`, `None` when the sender has no rows. */
  function AverageAmount(ts: seq<Transaction>, sender: int): (r: Option<real>)
    ensures r.None? <==> forall t :: t in ts ==> t.sender != sender
  {
    var rows := Filter(ts, (t: Transaction) => t.sender == sender);
    if |rows| == 0 then
      None
    else
      assert rows[0] in ts;
      Some(SumOf(rows, (t: Transaction) => t.amount) as real / |rows| as real)
  }

  /**
   * `findSimilarRecentTransactions`: the account's rows since `since` with
   * this description and amount, newest first. The comparison
   * `t.description = :description` is never true for a `NULL` description.
   */
  function FindSimilarRecentTransactions(ts: seq<Transaction>, account: int, description: Option<string>,
                                         amount: int, since: Instant): (r: seq<Transaction>)
    ensures forall t :: t in r <==> (t in ts && t.sender == account && description.Some?
                                    && t.description == description && t.amount == amount && t.timestamp >= since)
    ensures description.None? ==> r == []
  {
    NewestFirst(Filter(ts, (t: Transaction) => t.sender == account && description.Some? && t.description == description
                                && t.amount == amount && t.timestamp >= since))
  }

  // ---------------------------------------------------------------- history with filters

  /** The optional criteria of the history query; `None` is a `NULL` parameter. */
  datatype Filters = Filters(
    search: Option<string>,
    transactionType: Option<string>,
    status: Option<string>,
    category: Option<string>,
    startDate: Option<Instant>,
    endDate: Option<Instant>,
    minAmount: Option<int>,
    maxAmount: Option<int>)

  const NO_FILTERS: Filters := Filters(None, None, None, None, None, None, None, None)

  /**
   * SQL `s LIKE p` without an escape character: `%` matches any run of
   * characters, `_` exactly one character, and any other character itself.
   */
  predicate Like(s: string, p: string)
    decreases |s| + |p|
  {
    if p == [] then s == []
    else if p[0] == '%' then Like(s, p[1..]) || (s != [] && Like(s[1..], p))
    else s != [] && (p[0] == '_' || p[0] == s[0]) && Like(s[1..], p[1..])
  }

  predicate NoWildcards(q: string)
  {
    forall i :: 0 <= i < |q| ==> q[i] != '%' && q[i] != '_'
  }

  /**
   * `LOWER(field) LIKE LOWER(CONCAT('%', :search, '%'))`; a `NULL` field never
   * matches, and a `%` or `_` in the search text is a wildcard.
   */
  predicate LikeIgnoringCase(field: Option<string>, search: string)
  {
    field.Some? && Like(Text.ToLower(field.value), Text.ToLower("%" + search + "%"))
  }

  lemma {:induction false} LikeAny(s: string)
    ensures Like(s, "%")
    decreases |s|
  {
    if s != [] {
      LikeAny(s[1..]);
    }
  }

  /** A wildcard-free text followed by `%` matches exactly the strings it begins. */
  lemma {:induction false} LikePrefix(s: string, q: string)
    requires NoWildcards(q)
    ensures Like(s, q + "%") <==> |q| <= |s| && s[..|q|] == q
    decreases |q|
  {
    if q == [] {
      assert q + "%" == "%";
      LikeAny(s);
    } else {
      assert (q + "%")[0] == q[0] && (q + "%")[1..] == q[1..] + "%";
      assert NoWildcards(q[1..]) by {
        forall i | 0 <= i < |q[1..]| ensures q[1..][i] != '%' && q[1..][i] != '_' {
          assert q[1..][i] == q[i + 1];
        }
      }
      if s != [] {
        LikePrefix(s[1..], q[1..]);
        if |q| <= |s| && s[..|q|] == q {
          assert s[1..][..|q| - 1] == s[..|q|][1..];
        }
        if s[0] == q[0] && |q| - 1 <= |s| - 1 && s[1..][..|q| - 1] == q[1..] {
          assert s[..|q|] == [s[0]] + s[1..][..|q| - 1];
          assert q == [q[0]] + q[1..];
        }
      }
    }
  }

  /** A leading `%` lets the rest of the pattern match any suffix. */
  lemma {:induction false} LikeSuffix(s: string, r: string)
    ensures Like(s, "%" + r) <==> exists i :: 0 <= i <= |s| && Like(s[i..], r)
    decreases |s|
  {
    assert ("%" + r)[0] == '%' && ("%" + r)[1..] == r;
    assert s[0..] == s;
    if s != [] {
      LikeSuffix(s[1..], r);
      if exists i :: 0 <= i <= |s| && Like(s[i..], r) {
        var i :| 0 <= i <= |s| && Like(s[i..], r);
        if i > 0 {
          assert s[1..][i - 1..] == s[i..];
        }
      }
      if exists i :: 0 <= i <= |s[1..]| && Like(s[1..][i..], r) {
        var i :| 0 <= i <= |s[1..]| && Like(s[1..][i..], r);
        assert s[1..][i..] == s[i + 1..];
      }
    }
  }

  /** Without wildcards, `LIKE '%q%'` is substring search. */
  lemma LikeContains(s: string, q: string)
    requires NoWildcards(q)
    ensures Like(s, "%" + q + "%") <==> Text.Contains(s, q)
  {
    assert "%" + q + "%" == "%" + (q + "%");
    LikeSuffix(s, q + "%");
    if Like(s, "%" + q + "%") {
      var i :| 0 <= i <= |s| && Like(s[i..], q + "%");
      LikePrefix(s[i..], q);
      assert Text.OccursAt(s, q, i);
    }
    if Text.Contains(s, q) {
      var i :| 0 <= i <= |s| - |q| && Text.OccursAt(s, q, i);
      LikePrefix(s[i..], q);
      assert s[i..][..|q|] == s[i..i + |q|];
    }
  }

  /**
   * A search text without `%` or `_` matches a field exactly when its lower
   * case occurs in the field's lower case.
   */
  lemma LikeWithoutWildcards(field: Option<string>, search: string)
    requires NoWildcards(search)
    ensures LikeIgnoringCase(field, search)
        <==> field.Some? && Text.Contains(Text.ToLower(field.value), Text.ToLower(search))
  {
    var q := Text.ToLower(search);
    assert Text.ToLower("%" + search + "%") == "%" + q + "%";
    if field.Some? {
      LikeContains(Text.ToLower(field.value), q);
    }
  }

  predicate InPeriod(t: Transaction, startDate: Option<Instant>, endDate: Option<Instant>)
  {
    (startDate.None? || t.timestamp >= startDate.value) && (endDate.None? || t.timestamp <= endDate.value)
  }

  /** The `WHERE` clause of `findTransactionsWithFilters`. */
  predicate Matches(t: Transaction, account: int, f: Filters)
  {
    Involves(t, account)
    && (f.search.None? || LikeIgnoringCase(t.description, f.search.value)
                       || LikeIgnoringCase(t.merchantName, f.search.value))
    && (f.transactionType.None? || t.transactionType == f.transactionType)
    && (f.status.None? || Some(t.status) == f.status)
    && (f.category.None? || t.category == f.category)
    && InPeriod(t, f.startDate, f.endDate)
    && (f.minAmount.None? || t.amount >= f.minAmount.value)
    && (f.maxAmount.None? || t.amount <= f.maxAmount.value)
  }

  function MatchesFilters(account: int, f: Filters): Transaction -> bool
  {
    t => Matches(t, account, f)
  }

  /**
   * Every row of the account meeting every given criterion, each as often
   * as it is stored, newest first.
   */
  function FindTransactionsWithFilters(ts: seq<Transaction>, account: int, f: Filters): (r: seq<Transaction>)
    ensures forall t :: multiset(r)[t] == if Matches(t, account, f) then multiset(ts)[t] else 0
    ensures forall i, j :: 0 <= i < j < |r| ==> r[i].timestamp >= r[j].timestamp
  {
    FilterCounts(ts, MatchesFilters(account, f));
    NewestFirst(Filter(ts, MatchesFilters(account, f)))
  }

  function InvolvedInPeriod(account: int, startDate: Option<Instant>, endDate: Option<Instant>): Transaction -> bool
  {
    t => Involves(t, account) && InPeriod(t, startDate, endDate)
  }

  /** `findTransactionsForExport`: the account's rows in the period, newest first. */
  function FindTransactionsForExport(ts: seq<Transaction>, account: int,
                                     startDate: Option<Instant>, endDate: Option<Instant>): seq<Transaction>
  {
    NewestFirst(Filter(ts, InvolvedInPeriod(account, startDate, endDate)))
  }

  /** The export query is the history query with only the two dates given. */
  lemma ExportIsDateOnlyHistory(ts: seq<Transaction>, account: int, startDate: Option<Instant>, endDate: Option<Instant>)
    ensures FindTransactionsForExport(ts, account, startDate, endDate)
         == FindTransactionsWithFilters(ts, account, NO_FILTERS.(startDate := startDate, endDate := endDate))
  {
    var f := NO_FILTERS.(startDate := startDate, endDate := endDate);
    FilterEquivalent(ts, InvolvedInPeriod(account, startDate, endDate), MatchesFilters(account, f));
  }

  /** Lower-casing the search text first does not change what it matches. */
  lemma LikeIgnoresCase(field: Option<string>, search: string)
    ensures LikeIgnoringCase(field, search) == LikeIgnoringCase(field, Text.ToLower(search))
  {
    assert Text.ToLower("%" + search + "%") == Text.ToLower("%" + Text.ToLower(search) + "%");
  }

  /** The search text is compared without regard to case. */
  lemma SearchIgnoresCase(ts: seq<Transaction>, account: int, f: Filters, search: string)
    ensures FindTransactionsWithFilters(ts, account, f.(search := Some(search)))
         == FindTransactionsWithFilters(ts, account, f.(search := Some(Text.ToLower(search))))
  {
    var f1, f2 := f.(search := Some(search)), f.(search := Some(Text.ToLower(search)));
    forall t | t in ts ensures Matches(t, account, f1) == Matches(t, account, f2) {
      LikeIgnoresCase(t.description, search);
      LikeIgnoresCase(t.merchantName, search);
    }
    FilterEquivalent(ts, MatchesFilters(account, f1), MatchesFilters(account, f2));
  }

  // ---------------------------------------------------------------- paging

  /** A `Page` of a query result: one slice and the totals. */
  datatype Page<T> = Page(content: seq<T>, totalElements: nat, totalPages: nat)

  /** The number of pages of `size` rows that `n` rows fill: the ceiling of `n / size`. */
  function PageCount(n: nat, size: nat): (pages: nat)
    requires size > 0
    ensures pages * size >= n
    ensures pages == 0 || (pages - 1) * size < n
  {
    var q := (n + size - 1) / size;
    assert q * size + (n + size - 1) % size == n + size - 1;
    if q == 0 then q
    else
      assert (q - 1) * size == q * size - size;
      q
  }

  lemma MulMonotone(a: nat, b: nat, size: nat)
    requires a <= b
    ensures a * size <= b * size
  {
    assert b * size - a * size == (b - a) * size;
  }

  /** The at most `size` rows from position `start` on. */
  function PageContent<T>(rows: seq<T>, start: nat, size: nat): (c: seq<T>)
    ensures |c| == if start >= |rows| then 0 else if start + size < |rows| then size else |rows| - start
    ensures forall k :: 0 <= k < |c| ==> c[k] == rows[start + k]
  {
    if start >= |rows| then [] else rows[start .. if start + size < |rows| then start + size else |rows|]
  }

  /** The page with number `page` (from 0) when pages hold `size` rows. */
  function PageOf<T>(rows: seq<T>, page: nat, size: nat): (p: Page<T>)
    requires size > 0
    ensures p.totalElements == |rows|
    ensures p.totalPages * size >= |rows| && (p.totalPages == 0 || (p.totalPages - 1) * size < |rows|)
    ensures |p.content| <= size
    ensures page < p.totalPages <==> |p.content| > 0
  {
    var pages := PageCount(|rows|, size);
    var start := page * size;
    var content := PageContent(rows, start, size);
    if page < pages then
      MulMonotone(page, pages - 1, size);
      Page(content, |rows|, pages)
    else
      MulMonotone(pages, page, size);
      Page(content, |rows|, pages)
  }

  /** Row `i` of the result is entry `i % size` of page `i / size`. */
  lemma PagesCoverRows<T>(rows: seq<T>, size: nat, i: nat)
    requires size > 0 && i < |rows|
    ensures i % size < |PageOf(rows, i / size, size).content|
    ensures PageOf(rows, i / size, size).content[i % size] == rows[i]
  {
    var page, offset := i / size, i % size;
    assert page * size + offset == i;
    assert PageOf(rows, page, size).content == PageContent(rows, page * size, size);
  }

  // ---------------------------------------------------------------- recurring payments

  /** The `GROUP BY t.description, t.amount, t.merchantName` key. */
  datatype RecurringKey = RecurringKey(description: Option<string>, amount: int, merchantName: Option<string>)

  /** One result row: the key, `COUNT(t)`, `MIN(t.timestamp)` and `MAX(t.timestamp)`. */
  datatype RecurringRow = RecurringRow(key: RecurringKey, frequency: nat,
                                       firstTransaction: Instant, lastTransaction: Instant)

  function KeyOf(t: Transaction): RecurringKey
  {
    RecurringKey(t.description, t.amount, t.merchantName)
  }

  /** `WHERE t.sender = :account AND t.timestamp >= :since` */
  function RecurringWindow(ts: seq<Transaction>, account: int, since: Instant): seq<Transaction>
  {
    Filter(ts, (t: Transaction) => t.sender == account && t.timestamp >= since)
  }

  function GroupOf(rows: seq<Transaction>, k: RecurringKey): seq<Transaction>
  {
    Filter(rows, (t: Transaction) => KeyOf(t) == k)
  }

  function MinTimestamp(s: seq<Transaction>): (m: Instant)
    requires |s| > 0
    ensures forall t :: t in s ==> m <= t.timestamp
    ensures exists t :: t in s && m == t.timestamp
  {
    if |s| == 1 then s[0].timestamp
    else
      var m := MinTimestamp(s[1..]);
      assert forall t :: t in s[1..] ==> t in s;
      assert forall t :: t in s ==> t == s[0] || t in s[1..];
      if s[0].timestamp <= m then s[0].timestamp else m
  }

  function MaxTimestamp(s: seq<Transaction>): (m: Instant)
    requires |s| > 0
    ensures forall t :: t in s ==> t.timestamp <= m
    ensures exists t :: t in s && m == t.timestamp
  {
    if |s| == 1 then s[0].timestamp
    else
      var m := MaxTimestamp(s[1..]);
      assert forall t :: t in s[1..] ==> t in s;
      assert forall t :: t in s ==> t == s[0] || t in s[1..];
      if s[0].timestamp >= m then s[0].timestamp else m
  }

  /** `rows` has a row with key `k`, so the group of `k` is not empty. */
  predicate HasKey(rows: seq<Transaction>, k: RecurringKey)
  {
    exists t :: t in rows && KeyOf(t) == k
  }

  /**
   * The aggregate row of the group with key `k`: its size, and the earliest
   * and latest timestamps in it.
   */
  function RecurringRowOf(rows: seq<Transaction>, k: RecurringKey): (r: RecurringRow)
    requires HasKey(rows, k)
    ensures r.key == k && r.frequency == |GroupOf(rows, k)|
  {
    var g := GroupOf(rows, k);
    var t :| t in rows && KeyOf(t) == k;
    assert t in g;
    RecurringRow(k, |g|, MinTimestamp(g), MaxTimestamp(g))
  }

  /**
   * The group is not empty, and its first and last timestamps are the
   * earliest and the latest of its rows.
   */
  lemma RecurringRowBounds(rows: seq<Transaction>, k: RecurringKey)
    requires HasKey(rows, k)
    ensures RecurringRowOf(rows, k).frequency > 0
    ensures forall t :: t in rows && KeyOf(t) == k ==>
              RecurringRowOf(rows, k).firstTransaction <= t.timestamp <= RecurringRowOf(rows, k).lastTransaction
    ensures exists t :: t in rows && KeyOf(t) == k && t.timestamp == RecurringRowOf(rows, k).firstTransaction
    ensures exists t :: t in rows && KeyOf(t) == k && t.timestamp == RecurringRowOf(rows, k).lastTransaction
  {
    var g := GroupOf(rows, k);
    var t :| t in rows && KeyOf(t) == k;
    assert t in g;
  }

  function RecurringKeys(rows: seq<Transaction>): (ks: seq<RecurringKey>)
    ensures NoDuplicates(ks)
    ensures forall k :: k in ks <==> HasKey(rows, k)
  {
    var all := seq(|rows|, i requires 0 <= i < |rows| => KeyOf(rows[i]));
    assert forall t :: t in rows ==> KeyOf(t) in all by {
      forall t | t in rows ensures KeyOf(t) in all {
        var i :| 0 <= i < |rows| && rows[i] == t;
        assert all[i] == KeyOf(t);
      }
    }
    Distinct(all)
  }

  /** The aggregate rows of the keys `ks`, before the `HAVING` clause. */
  function RecurringGroups(rows: seq<Transaction>, ks: seq<RecurringKey>): (gs: seq<RecurringRow>)
    requires forall i :: 0 <= i < |ks| ==> HasKey(rows, ks[i])
    ensures |gs| == |ks|
    ensures forall i :: 0 <= i < |ks| ==> gs[i] == RecurringRowOf(rows, ks[i])
  {
    seq(|ks|, i requires 0 <= i < |ks| => RecurringRowOf(rows, ks[i]))
  }

  /** Distinct keys give distinct aggregate rows. */
  lemma RecurringGroupsDistinct(rows: seq<Transaction>, ks: seq<RecurringKey>)
    requires forall i :: 0 <= i < |ks| ==> HasKey(rows, ks[i])
    requires NoDuplicates(ks)
    ensures NoDuplicates(RecurringGroups(rows, ks))
  {
    var gs := RecurringGroups(rows, ks);
    forall i, j | 0 <= i < j < |gs| ensures gs[i] != gs[j] {
      assert gs[i].key == ks[i] && gs[j].key == ks[j];
    }
  }

  /** Rows that are each the aggregate of their own key and are pairwise different have different keys. */
  lemma RecurringKeysDiffer(rows: seq<Transaction>, r: seq<RecurringRow>)
    requires NoDuplicates(r)
    requires forall row :: row in r ==> HasKey(rows, row.key) && row == RecurringRowOf(rows, row.key)
    ensures forall i, j :: 0 <= i < j < |r| ==> r[i].key != r[j].key
  {
    forall i, j | 0 <= i < j < |r| ensures r[i].key != r[j].key {
      assert r[i] in r && r[j] in r;
    }
  }

  /** The `HAVING COUNT(t) >= :minOccurrences` clause. */
  function Frequent(minOccurrences: int): RecurringRow -> bool
  {
    (g: RecurringRow) => g.frequency >= minOccurrences
  }

  /** The keys of `rows`, each known to have a group. */
  lemma RecurringKeysHaveGroups(rows: seq<Transaction>)
    ensures forall i :: 0 <= i < |RecurringKeys(rows)| ==> HasKey(rows, RecurringKeys(rows)[i])
  {
    var ks := RecurringKeys(rows);
    forall i | 0 <= i < |ks| ensures HasKey(rows, ks[i]) {
      assert ks[i] in ks;
    }
  }

  /** The aggregate rows of `rows` that pass the `HAVING` clause, most frequent first. */
  function FrequentRows(rows: seq<Transaction>, minOccurrences: int): (r: seq<RecurringRow>)
    ensures forall i, j :: 0 <= i < j < |r| ==> r[i].frequency >= r[j].frequency
  {
    RecurringKeysHaveGroups(rows);
    var gs := RecurringGroups(rows, RecurringKeys(rows));
    SortBy(Filter(gs, Frequent(minOccurrences)), (a: RecurringRow, b: RecurringRow) => a.frequency >= b.frequency)
  }

  /** Every aggregate row of `rows` is the row of its own key. */
  lemma RecurringGroupsSound(rows: seq<Transaction>)
    ensures forall i :: 0 <= i < |RecurringKeys(rows)| ==> HasKey(rows, RecurringKeys(rows)[i])
    ensures forall row :: row in RecurringGroups(rows, RecurringKeys(rows)) ==>
              HasKey(rows, row.key) && row == RecurringRowOf(rows, row.key)
  {
    RecurringKeysHaveGroups(rows);
    var gs := RecurringGroups(rows, RecurringKeys(rows));
    forall row | row in gs ensures HasKey(rows, row.key) && row == RecurringRowOf(rows, row.key) {
      var i :| 0 <= i < |gs| && gs[i] == row;
    }
  }

  /** Each row of the result is the aggregate of its key and passes the `HAVING` clause. */
  lemma FrequentRowsSound(rows: seq<Transaction>, minOccurrences: int)
    ensures forall row :: row in FrequentRows(rows, minOccurrences) ==>
              HasKey(rows, row.key) && row == RecurringRowOf(rows, row.key) && row.frequency >= minOccurrences
  {
    RecurringGroupsSound(rows);
  }

  /** A key with enough rows has a row in the result. */
  lemma FrequentRowFor(rows: seq<Transaction>, minOccurrences: int, k: RecurringKey)
    requires HasKey(rows, k) && |GroupOf(rows, k)| >= minOccurrences
    ensures RecurringRowOf(rows, k) in FrequentRows(rows, minOccurrences)
  {
    RecurringKeysHaveGroups(rows);
    var ks := RecurringKeys(rows);
    var gs := RecurringGroups(rows, ks);
    assert k in ks;
    var i :| 0 <= i < |ks| && ks[i] == k;
    assert gs[i] == RecurringRowOf(rows, k);
    assert Frequent(minOccurrences)(gs[i]);
    assert gs[i] in gs;
  }

  /** Every key frequent enough has a row in the result. */
  lemma FrequentRowsComplete(rows: seq<Transaction>, minOccurrences: int)
    ensures forall t :: t in rows && |GroupOf(rows, KeyOf(t))| >= minOccurrences
              ==> exists row :: row in FrequentRows(rows, minOccurrences) && row.key == KeyOf(t)
  {
    forall t | t in rows && |GroupOf(rows, KeyOf(t))| >= minOccurrences
      ensures exists row :: row in FrequentRows(rows, minOccurrences) && row.key == KeyOf(t)
    {
      FrequentRowFor(rows, minOccurrences, KeyOf(t));
    }
  }

  /** No key has two rows in the result. */
  lemma FrequentRowsDistinct(rows: seq<Transaction>, minOccurrences: int)
    ensures forall i, j :: 0 <= i < j < |FrequentRows(rows, minOccurrences)| ==>
              FrequentRows(rows, minOccurrences)[i].key != FrequentRows(rows, minOccurrences)[j].key
  {
    RecurringKeysHaveGroups(rows);
    var ks := RecurringKeys(rows);
    var gs := RecurringGroups(rows, ks);
    var r := FrequentRows(rows, minOccurrences);
    RecurringGroupsDistinct(rows, ks);
    assert multiset(r) <= multiset(gs);
    NoDuplicatesSubmultiset(gs, r);
    FrequentRowsSound(rows, minOccurrences);
    RecurringKeysDiffer(rows, r);
  }

  /**
   * `findPotentialRecurringTransactions`: one row per (description, amount,
   * merchant) among the account's outgoing rows since `since` that occurs at
   * least `minOccurrences` times, most frequent first.
   */
  function FindPotentialRecurringTransactions(ts: seq<Transaction>, account: int, since: Instant,
                                              minOccurrences: int): (r: seq<RecurringRow>)
    ensures forall row :: row in r ==>
              HasKey(RecurringWindow(ts, account, since), row.key)
              && row == RecurringRowOf(RecurringWindow(ts, account, since), row.key)
              && row.frequency >= minOccurrences
    ensures forall t :: t in RecurringWindow(ts, account, since)
              && |GroupOf(RecurringWindow(ts, account, since), KeyOf(t))| >= minOccurrences
              ==> exists row :: row in r && row.key == KeyOf(t)
    ensures forall i, j :: 0 <= i < j < |r| ==> r[i].key != r[j].key
    ensures forall i, j :: 0 <= i < j < |r| ==> r[i].frequency >= r[j].frequency
  {
    var rows := RecurringWindow(ts, account, since);
    FrequentRowsSound(rows, minOccurrences);
    FrequentRowsComplete(rows, minOccurrences);
    FrequentRowsDistinct(rows, minOccurrences);
    FrequentRows(rows, minOccurrences)
  }

  // ---------------------------------------------------------------- category analysis

  /** One result row: the category, `COUNT(t)` and `SUM(t.amount)`. */
  datatype CategoryRow = CategoryRow(category: string, count: nat, totalAmount: int)

  /** The rows of the account in the period that have a category. */
  function CategoryWindow(ts: seq<Transaction>, account: int,
                          startDate: Option<Instant>, endDate: Option<Instant>): (w: seq<Transaction>)
    ensures forall t :: t in w ==> t.category.Some?
  {
    Filter(ts, (t: Transaction) => Involves(t, account) && t.category.Some? && InPeriod(t, startDate, endDate))
  }

  function CategoryGroup(rows: seq<Transaction>, c: string): seq<Transaction>
  {
    Filter(rows, (t: Transaction) => t.category == Some(c))
  }

  /** The aggregate row of category `c`: how many rows it has and their total amount. */
  function CategoryRowOf(rows: seq<Transaction>, c: string): (r: CategoryRow)
    ensures r.category == c && r.count == |CategoryGroup(rows, c)|
    ensures r.count > 0 <==> exists t :: t in rows && t.category == Some(c)
  {
    var g := CategoryGroup(rows, c);
    assert |g| > 0 ==> g[0] in g;
    assert (exists t :: t in rows && t.category == Some(c)) ==> |g| > 0 by {
      if t :| t in rows && t.category == Some(c) {
        assert t in g;
      }
    }
    CategoryRow(c, |g|, SumOf(g, (t: Transaction) => t.amount))
  }

  function Categories(rows: seq<Transaction>): (cs: seq<string>)
    requires forall t :: t in rows ==> t.category.Some?
    ensures NoDuplicates(cs)
    ensures forall c :: c in cs <==> exists t :: t in rows && t.category == Some(c)
  {
    var all := seq(|rows|, i requires 0 <= i < |rows| => rows[i].category.value);
    assert forall t :: t in rows ==> t.category.value in all by {
      forall t | t in rows ensures t.category.value in all {
        var i :| 0 <= i < |rows| && rows[i] == t;
        assert all[i] == t.category.value;
      }
    }
    assert forall c :: c in all ==> exists t :: t in rows && t.category == Some(c) by {
      forall c | c in all ensures exists t :: t in rows && t.category == Some(c) {
        var i :| 0 <= i < |all| && all[i] == c;
        assert rows[i] in rows;
      }
    }
    Distinct(all)
  }

  function CategoryRows(rows: seq<Transaction>, cs: seq<string>): (gs: seq<CategoryRow>)
    ensures |gs| == |cs|
    ensures forall i :: 0 <= i < |cs| ==> gs[i] == CategoryRowOf(rows, cs[i])
  {
    seq(|cs|, i requires 0 <= i < |cs| => CategoryRowOf(rows, cs[i]))
  }

  lemma CategoryRowsDistinct(rows: seq<Transaction>, cs: seq<string>)
    requires NoDuplicates(cs)
    ensures NoDuplicates(CategoryRows(rows, cs))
  {
    var gs := CategoryRows(rows, cs);
    forall i, j | 0 <= i < j < |gs| ensures gs[i] != gs[j] {
      assert gs[i].category == cs[i] && gs[j].category == cs[j];
    }
  }

  lemma CategoriesDiffer(rows: seq<Transaction>, r: seq<CategoryRow>)
    requires NoDuplicates(r)
    requires forall row :: row in r ==> row == CategoryRowOf(rows, row.category)
    ensures forall i, j :: 0 <= i < j < |r| ==> r[i].category != r[j].category
  {
    forall i, j | 0 <= i < j < |r| ensures r[i].category != r[j].category {
      assert r[i] in r && r[j] in r;
    }
  }

  /** The aggregate rows of the categories of `rows`, largest total first. */
  function CategoryTotals(rows: seq<Transaction>): (r: seq<CategoryRow>)
    requires forall t :: t in rows ==> t.category.Some?
    ensures forall i, j :: 0 <= i < j < |r| ==> r[i].totalAmount >= r[j].totalAmount
  {
    SortBy(CategoryRows(rows, Categories(rows)), (a: CategoryRow, b: CategoryRow) => a.totalAmount >= b.totalAmount)
  }

  /** Each row of the result is the aggregate of its category, which has rows. */
  lemma CategoryTotalsSound(rows: seq<Transaction>)
    requires forall t :: t in rows ==> t.category.Some?
    ensures forall row :: row in CategoryTotals(rows) ==> row == CategoryRowOf(rows, row.category) && row.count > 0
  {
    var cs := Categories(rows);
    var gs := CategoryRows(rows, cs);
    forall row | row in gs ensures row == CategoryRowOf(rows, row.category) && row.count > 0 {
      var i :| 0 <= i < |gs| && gs[i] == row;
      assert cs[i] in cs;
    }
  }

  /** A category of `rows` has a row in the result. */
  lemma CategoryTotalFor(rows: seq<Transaction>, c: string)
    requires forall t :: t in rows ==> t.category.Some?
    requires exists t :: t in rows && t.category == Some(c)
    ensures CategoryRowOf(rows, c) in CategoryTotals(rows)
  {
    var cs := Categories(rows);
    var gs := CategoryRows(rows, cs);
    assert c in cs;
    var i :| 0 <= i < |cs| && cs[i] == c;
    assert gs[i] in gs;
  }

  /** No category has two rows in the result. */
  lemma CategoryTotalsDistinct(rows: seq<Transaction>)
    requires forall t :: t in rows ==> t.category.Some?
    ensures forall i, j :: 0 <= i < j < |CategoryTotals(rows)| ==>
              CategoryTotals(rows)[i].category != CategoryTotals(rows)[j].category
  {
    var cs := Categories(rows);
    var gs := CategoryRows(rows, cs);
    var r := CategoryTotals(rows);
    CategoryRowsDistinct(rows, cs);
    NoDuplicatesSubmultiset(gs, r);
    CategoryTotalsSound(rows);
    CategoriesDiffer(rows, r);
  }

  /**
   * `findCategoryAnalysis`: per category among the account's categorised
   * rows in the period, the number of rows and their total, largest total
   * first. Each category appears once.
   */
  function FindCategoryAnalysis(ts: seq<Transaction>, account: int,
                                startDate: Option<Instant>, endDate: Option<Instant>): (r: seq<CategoryRow>)
    ensures forall row :: row in r ==>
              row == CategoryRowOf(CategoryWindow(ts, account, startDate, endDate), row.category) && row.count > 0
    ensures forall t :: t in CategoryWindow(ts, account, startDate, endDate)
              ==> exists row :: row in r && Some(row.category) == t.category
    ensures forall i, j :: 0 <= i < j < |r| ==> r[i].category != r[j].category
    ensures forall i, j :: 0 <= i < j < |r| ==> r[i].totalAmount >= r[j].totalAmount
  {
    var rows := CategoryWindow(ts, account, startDate, endDate);
    CategoryTotalsSound(rows);
    CategoryTotalsDistinct(rows);
    forall t | t in rows ensures exists row :: row in CategoryTotals(rows) && Some(row.category) == t.category {
      CategoryTotalFor(rows, t.category.value);
    }
    CategoryTotals(rows)
  }

  // ---------------------------------------------------------------- date-range analytics

  /** `WHERE t.sender = :account AND t.timestamp >= :startDate AND t.timestamp <= :endDate` */
  function InDateRange(account: int, startDate: Instant, endDate: Instant): Transaction -> bool
  {
    (t: Transaction) => t.sender == account && startDate <= t.timestamp <= endDate
  }

  /** `countTransactionsByDateRange` */
  function CountTransactionsByDateRange(ts: seq<Transaction>, account: int, startDate: Instant, endDate: Instant): nat
  {
    |Filter(ts, InDateRange(account, startDate, endDate))|
  }

  /** `sumTransactionsByDateRange`: `None` (SQL `NULL`) exactly when the range holds no row. */
  function SumTransactionsByDateRange(ts: seq<Transaction>, account: int, startDate: Instant, endDate: Instant): (r: Option<int>)
    ensures r.None? <==> CountTransactionsByDateRange(ts, account, startDate, endDate) == 0
    ensures r.Some? ==> r.value == SumOf(Filter(ts, InDateRange(account, startDate, endDate)), (t: Transaction) => t.amount)
  {
    var rows := Filter(ts, InDateRange(account, startDate, endDate));
    if |rows| == 0 then None else Some(SumOf(rows, (t: Transaction) => t.amount))
  }

  /**
   * Splitting a date range at an instant splits the count and the sum:
   * the statistics of `[start, end]` are those of `[start, mid]` plus those
   * of `[mid + 1, end]`.
   */
  lemma DateRangeSplits(ts: seq<Transaction>, account: int, startDate: Instant, mid: Instant, endDate: Instant)
    requires startDate <= mid < endDate
    ensures CountTransactionsByDateRange(ts, account, startDate, endDate)
         == CountTransactionsByDateRange(ts, account, startDate, mid)
          + CountTransactionsByDateRange(ts, account, mid + 1, endDate)
    ensures SumTransactionsByDateRange(ts, account, startDate, endDate).GetOr(0)
         == SumTransactionsByDateRange(ts, account, startDate, mid).GetOr(0)
          + SumTransactionsByDateRange(ts, account, mid + 1, endDate).GetOr(0)
  {
    var f := (t: Transaction) => t.amount;
    FilterSplit(ts, InDateRange(account, startDate, endDate), InDateRange(account, startDate, mid),
                InDateRange(account, mid + 1, endDate), f);
  }
}
