/**
 * The string rules of the transaction service: the keyword categoriser, the
 * merchant name taken from a description, and the escaping of a description
 * for the CSV and JSON exports.
 */
module TransactionText {
  import opened Wrappers
  import opened Text
  import opened Sequences

  // ---------------------------------------------------------------- categories

  /**
   * The merchant table: a merchant keyword and its category. The table is an
   * unordered map, so the categoriser is given the order in which it visits
   * the entries.
   */
  const MERCHANT_CATEGORIES: seq<(string, string)> := [
    ("walmart", "GROCERIES"),
    ("target", "SHOPPING"),
    ("mcdonalds", "DINING"),
    ("starbucks", "DINING"),
    ("shell", "GAS"),
    ("exxon", "GAS"),
    ("amazon", "SHOPPING"),
    ("netflix", "ENTERTAINMENT"),
    ("spotify", "ENTERTAINMENT"),
    ("uber", "TRANSPORTATION")]

  /** Every category the categoriser can return. */
  const CATEGORIES: set<string> :=
    {"GROCERIES", "SHOPPING", "DINING", "GAS", "ENTERTAINMENT", "TRANSPORTATION", "TRANSFER", "ATM", "OTHER"}

  /** `entries` visits every entry of the merchant table once, in some order. */
  predicate IsEntryOrder(entries: seq<(string, string)>)
  {
    multiset(entries) == multiset(MERCHANT_CATEGORIES)
  }

  /** The category of the first entry, in visiting order, whose keyword occurs in `lower`. */
  function FirstMerchantMatch(lower: string, entries: seq<(string, string)>): (r: Option<string>)
    ensures r.None? <==> forall i :: 0 <= i < |entries| ==> !Contains(lower, entries[i].0)
    ensures r.Some? ==> exists i :: 0 <= i < |entries| && Contains(lower, entries[i].0) && r.value == entries[i].1
                                   && forall j :: 0 <= j < i ==> !Contains(lower, entries[j].0)
  {
    if entries == [] then None
    else if Contains(lower, entries[0].0) then Some(entries[0].1)
    else
      var r := FirstMerchantMatch(lower, entries[1..]);
      if r.Some? then
        var i :| 0 <= i < |entries[1..]| && Contains(lower, entries[1..][i].0) && r.value == entries[1..][i].1
                 && forall j :: 0 <= j < i ==> !Contains(lower, entries[1..][j].0);
        assert forall j :: 0 <= j < i + 1 ==> !Contains(lower, entries[j].0) by {
          forall j | 0 <= j < i + 1 ensures !Contains(lower, entries[j].0) {
            if j > 0 {
              assert entries[j] == entries[1..][j - 1];
            }
          }
        }
        assert entries[i + 1] == entries[1..][i];
        r
      else
        assert forall i :: 0 <= i < |entries| ==> !Contains(lower, entries[i].0) by {
          forall i | 0 <= i < |entries| ensures !Contains(lower, entries[i].0) {
            if i > 0 {
              assert entries[i] == entries[1..][i - 1];
            }
          }
        }
        r
  }

  /** The keyword rules tried when no merchant keyword occurs, in their order. */
  function KeywordCategory(lower: string): string
  {
    if Contains(lower, "grocery") || Contains(lower, "supermarket") then "GROCERIES"
    else if Contains(lower, "gas") || Contains(lower, "fuel") then "GAS"
    else if Contains(lower, "restaurant") || Contains(lower, "cafe") then "DINING"
    else if Contains(lower, "transfer") then "TRANSFER"
    else if Contains(lower, "atm") || Contains(lower, "withdrawal") then "ATM"
    else "OTHER"
  }

  /** `autoCategorizeTransaction(description)`, visiting the merchant table in the order `entries`. */
  function AutoCategorize(description: Option<string>, entries: seq<(string, string)>): string
  {
    match description
    case None => "OTHER"
    case Some(d) =>
      var lower := ToLower(d);
      match FirstMerchantMatch(lower, entries)
      case Some(category) => category
      case None => KeywordCategory(lower)
  }

  lemma MerchantCategoriesKnown(e: (string, string))
    requires e in MERCHANT_CATEGORIES
    ensures e.1 in CATEGORIES
  {
  }

  /** An entry visited by a visiting order of `table` is an entry of `table`, and the other way round. */
  lemma OrderMember(entries: seq<(string, string)>, table: seq<(string, string)>, e: (string, string))
    requires multiset(entries) == multiset(table)
    ensures e in entries <==> e in table
  {
    assert e in entries <==> e in multiset(entries);
  }

  /** The category of a merchant hit is the category of some entry whose keyword occurs. */
  lemma MerchantHitFrom(lower: string, entries: seq<(string, string)>, table: seq<(string, string)>)
    requires multiset(entries) == multiset(table)
    requires FirstMerchantMatch(lower, entries).Some?
    ensures exists e :: e in table && Contains(lower, e.0) && FirstMerchantMatch(lower, entries).value == e.1
  {
    var r := FirstMerchantMatch(lower, entries);
    var i :| 0 <= i < |entries| && Contains(lower, entries[i].0) && r.value == entries[i].1;
    OrderMember(entries, table, entries[i]);
  }

  lemma KeywordCategoryKnown(lower: string)
    ensures KeywordCategory(lower) in CATEGORIES
  {
  }

  /** The categoriser only ever answers one of the nine categories, and OTHER for a missing description. */
  lemma AutoCategorizeKnown(description: Option<string>, entries: seq<(string, string)>)
    requires IsEntryOrder(entries)
    ensures AutoCategorize(description, entries) in CATEGORIES
    ensures description.None? ==> AutoCategorize(description, entries) == "OTHER"
  {
    if description.Some? {
      var lower := ToLower(description.value);
      var r := FirstMerchantMatch(lower, entries);
      if r.Some? {
        MerchantHitFrom(lower, entries, MERCHANT_CATEGORIES);
        var e :| e in MERCHANT_CATEGORIES && r.value == e.1;
        MerchantCategoriesKnown(e);
        assert AutoCategorize(description, entries) == r.value;
      } else {
        KeywordCategoryKnown(lower);
        assert AutoCategorize(description, entries) == KeywordCategory(lower);
      }
    }
  }

  /**
   * A merchant keyword in the description decides the category: the answer
   * is the category of some merchant keyword occurring in the description,
   * whatever the keyword rules would say.
   */
  lemma MerchantHitWins(d: string, entries: seq<(string, string)>)
    requires IsEntryOrder(entries)
    requires exists e :: e in MERCHANT_CATEGORIES && Contains(ToLower(d), e.0)
    ensures exists e :: e in MERCHANT_CATEGORIES && Contains(ToLower(d), e.0)
                        && AutoCategorize(Some(d), entries) == e.1
  {
    HitWins(ToLower(d), entries, MERCHANT_CATEGORIES);
  }

  lemma HitWins(lower: string, entries: seq<(string, string)>, table: seq<(string, string)>)
    requires multiset(entries) == multiset(table)
    requires exists e :: e in table && Contains(lower, e.0)
    ensures FirstMerchantMatch(lower, entries).Some?
    ensures exists e :: e in table && Contains(lower, e.0) && FirstMerchantMatch(lower, entries).value == e.1
  {
    var e :| e in table && Contains(lower, e.0);
    OrderMember(entries, table, e);
    var k :| 0 <= k < |entries| && entries[k] == e;
    MerchantHitFrom(lower, entries, table);
  }

  /** Without a merchant keyword the keyword rules decide. */
  lemma NoMerchantUsesKeywords(d: string, entries: seq<(string, string)>)
    requires IsEntryOrder(entries)
    requires forall e :: e in MERCHANT_CATEGORIES ==> !Contains(ToLower(d), e.0)
    ensures AutoCategorize(Some(d), entries) == KeywordCategory(ToLower(d))
  {
    NoHit(ToLower(d), entries, MERCHANT_CATEGORIES);
  }

  lemma NoHit(lower: string, entries: seq<(string, string)>, table: seq<(string, string)>)
    requires multiset(entries) == multiset(table)
    requires forall e :: e in table ==> !Contains(lower, e.0)
    ensures FirstMerchantMatch(lower, entries).None?
  {
    forall i | 0 <= i < |entries| ensures !Contains(lower, entries[i].0) {
      OrderMember(entries, table, entries[i]);
    }
  }

  /**
   * Any merchant keyword occurring in the description may decide: for each
   * there is a visiting order of the table that answers its category.
   */
  lemma AnyMatchingMerchantPossible(d: string, e: (string, string))
    requires e in MERCHANT_CATEGORIES && Contains(ToLower(d), e.0)
    ensures exists entries :: IsEntryOrder(entries) && AutoCategorize(Some(d), entries) == e.1
  {
    TableHasNoDuplicates();
    AnyMatchPossible(ToLower(d), MERCHANT_CATEGORIES, e);
    var entries :| multiset(entries) == multiset(MERCHANT_CATEGORIES) && FirstMerchantMatch(ToLower(d), entries) == Some(e.1);
    assert AutoCategorize(Some(d), entries) == e.1;
  }

  lemma AnyMatchPossible(lower: string, table: seq<(string, string)>, e: (string, string))
    requires NoDuplicates(table) && e in table && Contains(lower, e.0)
    ensures exists entries :: multiset(entries) == multiset(table) && FirstMerchantMatch(lower, entries) == Some(e.1)
  {
    var entries := MoveToFront(table, e);
    FrontFirst(lower, entries);
  }

  lemma FrontFirst(lower: string, entries: seq<(string, string)>)
    requires entries != [] && Contains(lower, entries[0].0)
    ensures FirstMerchantMatch(lower, entries) == Some(entries[0].1)
  {
  }

  /** `table` visited from `e` on, the other entries in table order. */
  function MoveToFront<T(==,!new)>(table: seq<T>, e: T): (entries: seq<T>)
    requires NoDuplicates(table) && e in table
    ensures multiset(entries) == multiset(table) && entries != [] && entries[0] == e
  {
    var rest := Filter(table, (x: T) => x != e);
    NoDuplicatesCount(table);
    FilterCounts(table, (x: T) => x != e);
    var entries := [e] + rest;
    assert multiset(entries) == multiset(table) by {
      forall x ensures multiset(entries)[x] == multiset(table)[x] {
        assert multiset(entries)[x] == multiset([e])[x] + multiset(rest)[x];
      }
    }
    entries
  }

  lemma TableHasNoDuplicates()
    ensures NoDuplicates(MERCHANT_CATEGORIES)
  {
  }

  /** Upper-casing a string first does not change its lower-case form. */
  lemma LowerOfUpper(s: string)
    ensures ToLower(ToUpper(s)) == ToLower(s)
  {
    assert forall i :: 0 <= i < |s| ==> LowerChar(UpperChar(s[i])) == LowerChar(s[i]);
  }

  /** The categoriser ignores letter case. */
  lemma AutoCategorizeIgnoresCase(d: string, entries: seq<(string, string)>)
    ensures AutoCategorize(Some(d), entries) == AutoCategorize(Some(ToLower(d)), entries)
    ensures AutoCategorize(Some(d), entries) == AutoCategorize(Some(ToUpper(d)), entries)
  {
    ToLowerIdempotent(d);
    LowerOfUpper(d);
  }

  // ---------------------------------------------------------------- merchant name

  /**
   * `extractMerchantName(description)`: the text before the first space;
   * the whole description when `split(" ")` yields nothing (a non-empty
   * run of spaces).
   */
  function ExtractMerchantName(description: Option<string>): (r: Option<string>)
    ensures r.None? <==> description.None?
    ensures description.Some? && !(description.value != [] && AllSpaces(description.value)) ==>
              r == Some(BeforeFirstSpace(description.value))
    ensures description.Some? && description.value != [] && AllSpaces(description.value) ==> r == description
  {
    match description
    case None => None
    case Some(d) =>
      var parts := SplitOnSpace(d);
      SplitOnSpaceFirst(d);
      if |parts| > 0 then Some(parts[0]) else Some(d)
  }

  /** The merchant name is a prefix of the description without a space, unless the description is all spaces. */
  lemma MerchantNameIsFirstWord(d: string)
    requires !(d != [] && AllSpaces(d))
    ensures ExtractMerchantName(Some(d)).value <= d
    ensures ' ' !in ExtractMerchantName(Some(d)).value
  {
  }

  // ---------------------------------------------------------------- CSV

  /**
   * `escapeCommas(value)`: a value with a comma is put in double quotes
   * with its quotes doubled; any other value is written as it is.
   */
  function EscapeCommas(value: Option<string>): string
  {
    match value
    case None => ""
    case Some(v) => if ',' in v then "\"" + ReplaceChar(v, '"', "\"\"") + "\"" else v
  }

  /** Reads doubled quotes back as single ones. */
  function Undouble(s: string): string
  {
    if |s| >= 2 && s[0] == '"' && s[1] == '"' then "\"" + Undouble(s[2..])
    else if s == [] then []
    else [s[0]] + Undouble(s[1..])
  }

  /** How a CSV reader following section 2 of RFC 4180 reads one field. */
  function ParseCsvField(s: string): string
  {
    if |s| >= 2 && s[0] == '"' && s[|s| - 1] == '"' then Undouble(s[1..|s| - 1]) else s
  }

  lemma {:induction false} UndoubleDoubled(v: string)
    ensures Undouble(ReplaceChar(v, '"', "\"\"")) == v
  {
    if v != [] {
      UndoubleDoubled(v[1..]);
      var rest := ReplaceChar(v[1..], '"', "\"\"");
      if v[0] == '"' {
        assert ReplaceChar(v, '"', "\"\"") == "\"\"" + rest;
        assert ("\"\"" + rest)[2..] == rest;
      } else {
        assert ReplaceChar(v, '"', "\"\"") == [v[0]] + rest;
        assert ([v[0]] + rest)[1..] == rest;
      }
      assert v == [v[0]] + v[1..];
    }
  }

  /** A value with a comma is read back exactly as it was. */
  lemma EscapeCommasRoundTrip(v: string)
    requires ',' in v
    ensures ParseCsvField(EscapeCommas(Some(v))) == v
  {
    var inner := ReplaceChar(v, '"', "\"\"");
    var s := "\"" + inner + "\"";
    assert s[1..|s| - 1] == inner;
    UndoubleDoubled(v);
  }

  /** A value without a comma is written unchanged, quotes and all; a missing one as the empty text. */
  lemma EscapeCommasKeepsCommaFree(value: Option<string>)
    requires value.None? || ',' !in value.value
    ensures EscapeCommas(value) == if value.None? then "" else value.value
  {
  }

  /**
   * Quoting only on a comma departs from RFC 4180: a quoted value without a
   * comma is not escaped, and a reader strips its quotes.
   */
  lemma EscapeCommasLosesQuotes()
    ensures EscapeCommas(Some("\"a\"")) == "\"a\""
    ensures ParseCsvField(EscapeCommas(Some("\"a\""))) == "a"
  {
    assert ',' !in "\"a\"";
    assert "\"a\""[1..2] == "a";
    assert Undouble("a") == "a" by {
      assert "a"[1..] == [];
    }
  }

  // ---------------------------------------------------------------- JSON

  /**
   * `escapeJson(value)`: every double quote becomes `\"`, every line feed
   * `\n` and every carriage return `\r`, in three successive replacements.
   */
  function EscapeJson(value: Option<string>): string
  {
    match value
    case None => ""
    case Some(v) => ReplaceChar(ReplaceChar(ReplaceChar(v, '"', "\\\""), '\n', "\\n"), '\r', "\\r")
  }

  /** The escape of one character. */
  function EscapeJsonChar(c: char): string
  {
    if c == '"' then "\\\"" else if c == '\n' then "\\n" else if c == '\r' then "\\r" else [c]
  }

  /** The escape as a single pass, character by character. */
  function EscapeJsonChars(v: string): string
  {
    if v == [] then [] else EscapeJsonChar(v[0]) + EscapeJsonChars(v[1..])
  }

  /** The three replacements amount to escaping each character on its own. */
  lemma {:induction false} EscapeJsonPerChar(v: string)
    ensures EscapeJson(Some(v)) == EscapeJsonChars(v)
  {
    if v != [] {
      EscapeJsonPerChar(v[1..]);
      var c, rest := v[0], v[1..];
      assert v == [c] + rest;
      ReplaceCharAppend([c], rest, '"', "\\\"");
      var q := ReplaceChar([c], '"', "\\\"");
      var qr := ReplaceChar(rest, '"', "\\\"");
      ReplaceCharAppend(q, qr, '\n', "\\n");
      var n := ReplaceChar(q, '\n', "\\n");
      var nr := ReplaceChar(qr, '\n', "\\n");
      ReplaceCharAppend(n, nr, '\r', "\\r");
      assert ReplaceChar([c], '"', "\\\"") == (if c == '"' then "\\\"" else [c]) by {
        assert [c][1..] == [];
      }
      if c == '"' {
        assert ReplaceChar("\\\"", '\n', "\\n") == "\\\"";
        assert ReplaceChar("\\\"", '\r', "\\r") == "\\\"";
      } else if c == '\n' {
        assert ReplaceChar([c], '\n', "\\n") == "\\n" by { assert [c][1..] == []; }
        assert ReplaceChar("\\n", '\r', "\\r") == "\\n";
      } else if c == '\r' {
        assert ReplaceChar([c], '\n', "\\n") == [c] by { assert [c][1..] == []; }
        assert ReplaceChar([c], '\r', "\\r") == "\\r" by { assert [c][1..] == []; }
      } else {
        assert ReplaceChar([c], '\n', "\\n") == [c] by { assert [c][1..] == []; }
        assert ReplaceChar([c], '\r', "\\r") == [c] by { assert [c][1..] == []; }
      }
    }
  }

  /** The escaped text has no raw line break, so each value stays on one line; a missing value is the empty text. */
  lemma EscapeJsonNoLineBreaks(value: Option<string>)
    ensures '\n' !in EscapeJson(value) && '\r' !in EscapeJson(value)
    ensures value.None? ==> EscapeJson(value) == ""
  {
    if value.Some? {
      var q := ReplaceChar(value.value, '"', "\\\"");
      var n := ReplaceChar(q, '\n', "\\n");
      ReplaceCharRemoves(q, '\n', "\\n");
      ReplaceCharRemoves(n, '\r', "\\r");
      ReplaceCharKeepsAbsent(n, '\r', "\\r", '\n');
    }
  }

  /** How a JSON reader decodes the escapes `\"`, `\n` and `\r`. */
  function UnescapeJson(s: string): string
  {
    if |s| >= 2 && s[0] == '\\' && s[1] == '"' then "\"" + UnescapeJson(s[2..])
    else if |s| >= 2 && s[0] == '\\' && s[1] == 'n' then "\n" + UnescapeJson(s[2..])
    else if |s| >= 2 && s[0] == '\\' && s[1] == 'r' then "\r" + UnescapeJson(s[2..])
    else if s == [] then []
    else [s[0]] + UnescapeJson(s[1..])
  }

  lemma {:induction false} UnescapeEscapedChars(v: string)
    requires '\\' !in v
    ensures UnescapeJson(EscapeJsonChars(v)) == v
  {
    if v != [] {
      UnescapeEscapedChars(v[1..]);
      var e := EscapeJsonChars(v[1..]);
      var c := v[0];
      assert EscapeJsonChars(v) == EscapeJsonChar(c) + e;
      if c == '"' || c == '\n' || c == '\r' {
        assert (EscapeJsonChar(c) + e)[2..] == e;
      } else {
        assert ([c] + e)[1..] == e;
      }
      assert v == [c] + v[1..];
    }
  }

  /** A value without backslashes is read back exactly as it was. */
  lemma EscapeJsonRoundTrip(v: string)
    requires '\\' !in v
    ensures UnescapeJson(EscapeJson(Some(v))) == v
  {
    EscapeJsonPerChar(v);
    UnescapeEscapedChars(v);
  }

  /**
   * Backslashes are not escaped, unlike section 7 of RFC 8259 asks: a line
   * feed and the two characters backslash, `n` are written the same way.
   */
  lemma EscapeJsonNotInjective()
    ensures EscapeJson(Some("\n")) == EscapeJson(Some("\\n")) == "\\n"
  {
    EscapeJsonPerChar("\n");
    EscapeJsonPerChar("\\n");
    assert EscapeJsonChars("\\n") == EscapeJsonChar('\\') + EscapeJsonChars("n");
  }
}
