/**
 * String operations the backend and the front end rely on, written over
 * `seq<char>`: ASCII case mapping, substring search, Java's `String.replace`
 * and `String.split(" ")`, JavaScript's `trim` and `slice(-n)`, and decimal
 * rendering of whole numbers.
 */
module Text {

  // ---------------------------------------------------------------- case

  function LowerChar(c: char): (r: char)
    ensures 'A' <= c <= 'Z' ==> r as int == c as int + 32
    ensures !('A' <= c <= 'Z') ==> r == c
    ensures !('A' <= r <= 'Z')
  {
    if 'A' <= c <= 'Z' then (c as int + 32) as char else c
  }

  function UpperChar(c: char): (r: char)
    ensures 'a' <= c <= 'z' ==> r as int == c as int - 32
    ensures !('a' <= c <= 'z') ==> r == c
    ensures !('a' <= r <= 'z')
  {
    if 'a' <= c <= 'z' then (c as int - 32) as char else c
  }

  /** `toLowerCase()` restricted to ASCII letters. */
  function ToLower(s: string): (r: string)
    ensures |r| == |s|
    ensures forall i :: 0 <= i < |s| ==> r[i] == LowerChar(s[i])
  {
    seq(|s|, i requires 0 <= i < |s| => LowerChar(s[i]))
  }

  /** `toUpperCase()` restricted to ASCII letters. */
  function ToUpper(s: string): (r: string)
    ensures |r| == |s|
    ensures forall i :: 0 <= i < |s| ==> r[i] == UpperChar(s[i])
  {
    seq(|s|, i requires 0 <= i < |s| => UpperChar(s[i]))
  }

  lemma ToLowerIdempotent(s: string)
    ensures ToLower(ToLower(s)) == ToLower(s)
  {
  }

  lemma ToUpperIdempotent(s: string)
    ensures ToUpper(ToUpper(s)) == ToUpper(s)
  {
  }

  // ---------------------------------------------------------------- search

  /** `s.contains(p)` / SQL `LIKE '%p%'` without wildcards in `p`. */
  predicate Contains(s: string, p: string)
  {
    exists i :: 0 <= i <= |s| - |p| && OccursAt(s, p, i)
  }

  predicate OccursAt(s: string, p: string, i: int)
  {
    0 <= i <= |s| - |p| && s[i..i + |p|] == p
  }

  lemma ContainsEmpty(s: string)
    ensures Contains(s, "")
  {
    assert OccursAt(s, "", 0);
  }

  lemma ContainsChar(s: string, c: char)
    ensures Contains(s, [c]) <==> c in s
  {
    if c in s {
      var i :| 0 <= i < |s| && s[i] == c;
      assert OccursAt(s, [c], i);
    }
    if Contains(s, [c]) {
      var i :| 0 <= i <= |s| - 1 && OccursAt(s, [c], i);
      assert s[i..i + 1] == [c];
      assert s[i] == c;
    }
  }

  // ---------------------------------------------------------------- replace

  /** Java's `s.replace(String.valueOf(c), r)`: every occurrence of `c` becomes `r`. */
  function ReplaceChar(s: string, c: char, r: string): string
  {
    if s == [] then []
    else (if s[0] == c then r else [s[0]]) + ReplaceChar(s[1..], c, r)
  }

  lemma {:induction false} ReplaceCharAppend(a: string, b: string, c: char, r: string)
    ensures ReplaceChar(a + b, c, r) == ReplaceChar(a, c, r) + ReplaceChar(b, c, r)
  {
    if a == [] {
      assert a + b == b;
    } else {
      assert (a + b)[1..] == a[1..] + b;
      ReplaceCharAppend(a[1..], b, c, r);
    }
  }

  /** Replacing a character that does not occur changes nothing. */
  lemma {:induction false} ReplaceCharAbsent(s: string, c: char, r: string)
    requires c !in s
    ensures ReplaceChar(s, c, r) == s
  {
    if s != [] {
      ReplaceCharAbsent(s[1..], c, r);
    }
  }

  /** After the replacement the character is gone, unless the replacement brings it back. */
  lemma {:induction false} ReplaceCharRemoves(s: string, c: char, r: string)
    requires c !in r
    ensures c !in ReplaceChar(s, c, r)
  {
    if s != [] {
      ReplaceCharRemoves(s[1..], c, r);
    }
  }

  /** A character absent from both the input and the replacement stays absent. */
  lemma {:induction false} ReplaceCharKeepsAbsent(s: string, c: char, r: string, d: char)
    requires d !in s && d !in r
    ensures d !in ReplaceChar(s, c, r)
  {
    if s != [] {
      ReplaceCharKeepsAbsent(s[1..], c, r, d);
    }
  }

  // ---------------------------------------------------------------- Java split(" ")

  /**
   * The fields of `s` between single spaces, empty fields included:
   * `Fields("a  b") == ["a", "", "b"]`.
   */
  function Fields(s: string): (r: seq<string>)
    ensures |r| >= 1
  {
    if s == [] then [""]
    else if s[0] == ' ' then [""] + Fields(s[1..])
    else
      var f := Fields(s[1..]);
      [[s[0]] + f[0]] + f[1..]
  }

  function DropTrailingEmpty(parts: seq<string>): seq<string>
  {
    if parts == [] then []
    else if parts[|parts| - 1] == "" then DropTrailingEmpty(parts[..|parts| - 1])
    else parts
  }

  /**
   * Java's `s.split(" ")`: a string with no space is returned whole (even
   * the empty string); otherwise the fields with trailing empty strings removed.
   */
  function SplitOnSpace(s: string): seq<string>
  {
    if ' ' !in s then [s] else DropTrailingEmpty(Fields(s))
  }

  /** The characters of `s` before its first space (all of `s` when it has none). */
  function BeforeFirstSpace(s: string): (r: string)
    ensures r <= s && ' ' !in r
    ensures |r| < |s| ==> s[|r|] == ' '
  {
    if s == [] || s[0] == ' ' then [] else [s[0]] + BeforeFirstSpace(s[1..])
  }

  lemma {:induction false} BeforeFirstSpaceWhole(s: string)
    requires ' ' !in s
    ensures BeforeFirstSpace(s) == s
  {
    if s != [] {
      assert s == [s[0]] + s[1..];
      BeforeFirstSpaceWhole(s[1..]);
    }
  }

  predicate AllSpaces(s: string)
  {
    forall i :: 0 <= i < |s| ==> s[i] == ' '
  }

  lemma {:induction false} FieldsHead(s: string)
    ensures Fields(s)[0] == BeforeFirstSpace(s)
  {
    if s != [] && s[0] != ' ' {
      FieldsHead(s[1..]);
    }
  }

  /** Every field is empty exactly when the string is made of spaces. */
  lemma {:induction false} FieldsAllEmpty(s: string)
    ensures (forall i :: 0 <= i < |Fields(s)| ==> Fields(s)[i] == "") <==> AllSpaces(s)
  {
    if s == [] {
    } else if s[0] == ' ' {
      FieldsAllEmpty(s[1..]);
      assert Fields(s) == [""] + Fields(s[1..]);
      if AllSpaces(s) {
        assert AllSpaces(s[1..]) by {
          forall i | 0 <= i < |s[1..]| ensures s[1..][i] == ' ' {
            assert s[1..][i] == s[i + 1];
          }
        }
        forall i | 0 <= i < |Fields(s)| ensures Fields(s)[i] == "" {
          if i > 0 {
            assert Fields(s)[i] == Fields(s[1..])[i - 1];
          }
        }
      }
      if forall i :: 0 <= i < |Fields(s)| ==> Fields(s)[i] == "" {
        forall i | 0 <= i < |Fields(s[1..])| ensures Fields(s[1..])[i] == "" {
          assert Fields(s[1..])[i] == Fields(s)[i + 1];
        }
        forall i | 0 <= i < |s| ensures s[i] == ' ' {
          if i > 0 {
            assert s[i] == s[1..][i - 1];
          }
        }
      }
    } else {
      assert Fields(s)[0] != "";
    }
  }

  lemma {:induction false} DropTrailingEmptyShape(parts: seq<string>)
    ensures DropTrailingEmpty(parts) <= parts
    ensures DropTrailingEmpty(parts) == [] <==> forall i :: 0 <= i < |parts| ==> parts[i] == ""
  {
    if parts != [] && parts[|parts| - 1] == "" {
      var init := parts[..|parts| - 1];
      DropTrailingEmptyShape(init);
      if forall i :: 0 <= i < |init| ==> init[i] == "" {
        forall i | 0 <= i < |parts| ensures parts[i] == "" {
          if i < |init| {
            assert parts[i] == init[i];
          }
        }
      }
    }
  }

  /**
   * The first element of Java's `s.split(" ")` when there is one: the text
   * before the first space, which is empty for a leading space. The split
   * yields no element at all exactly when `s` is non-empty and made of spaces.
   */
  lemma SplitOnSpaceFirst(s: string)
    ensures |SplitOnSpace(s)| == 0 <==> (s != [] && AllSpaces(s))
    ensures |SplitOnSpace(s)| > 0 ==> SplitOnSpace(s)[0] == BeforeFirstSpace(s)
  {
    if ' ' !in s {
      BeforeFirstSpaceWhole(s);
      if s != [] {
        assert s[0] != ' ';
      }
    } else {
      FieldsHead(s);
      FieldsAllEmpty(s);
      DropTrailingEmptyShape(Fields(s));
    }
  }

  // ---------------------------------------------------------------- JavaScript

  /** The characters JavaScript's `trim()` removes. */
  predicate IsJsWhitespace(c: char)
  {
    var n := c as int;
    n == 0x20 || n == 0x09 || n == 0x0A || n == 0x0B || n == 0x0C || n == 0x0D
    || n == 0xA0 || n == 0x1680 || (0x2000 <= n <= 0x200A) || n == 0x2028 || n == 0x2029
    || n == 0x202F || n == 0x205F || n == 0x3000 || n == 0xFEFF
  }

  /** `s.trim()` is the empty string, i.e. `!s.trim()` holds. */
  predicate IsBlank(s: string)
  {
    forall i :: 0 <= i < |s| ==> IsJsWhitespace(s[i])
  }

  /** `s.slice(-n)`: the last `n` characters, or all of `s` when it is shorter. */
  function TakeLast(s: string, n: nat): (r: string)
    ensures |r| == if |s| <= n then |s| else n
    ensures r == s[|s| - |r|..]
  {
    if |s| <= n then s else s[|s| - n..]
  }

  // ---------------------------------------------------------------- numbers

  function DigitChar(d: nat): (c: char)
    requires d < 10
    ensures '0' <= c <= '9'
  {
    ('0' as int + d) as char
  }

  predicate IsDigits(s: string)
  {
    forall i :: 0 <= i < |s| ==> '0' <= s[i] <= '9'
  }

  /** Decimal rendering of a natural number, without leading zeros. */
  function NatToString(n: nat): (r: string)
    ensures |r| >= 1 && IsDigits(r)
    ensures |r| > 1 ==> r[0] != '0'
  {
    if n < 10 then [DigitChar(n)] else NatToString(n / 10) + [DigitChar(n % 10)]
  }

  /** Inverse of `NatToString`. */
  function DigitsValue(s: string): nat
    requires IsDigits(s)
  {
    if s == [] then 0 else DigitsValue(s[..|s| - 1]) * 10 + (s[|s| - 1] as int - '0' as int)
  }

  lemma {:induction false} NatToStringRoundTrip(n: nat)
    ensures DigitsValue(NatToString(n)) == n
  {
    if n >= 10 {
      var s := NatToString(n);
      assert s[..|s| - 1] == NatToString(n / 10);
      NatToStringRoundTrip(n / 10);
    }
  }

  /** Java's `String.valueOf(long)`. */
  function IntToString(n: int): (r: string)
    ensures |r| >= 1
    ensures n >= 0 ==> r == NatToString(n)
    ensures n < 0 ==> r == "-" + NatToString(-n)
  {
    if n >= 0 then NatToString(n) else "-" + NatToString(-n)
  }
}
