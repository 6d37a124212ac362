/** The fragment of JavaScript (and Python) string and number semantics the
    storefront relies on: truthiness of strings, `split` on one separator
    character, whitespace trimming, `parseInt(s, 10)`, and integer-to-string
    conversion. JavaScript numbers are modelled as integers or NaN, the only
    values the modelled code can produce when prices are kept in cents. */
module Js {
  import opened Wrappers

  /** A JavaScript number as this code uses it: an integer, or NaN. */
  datatype Number = Int(n: int) | NaN

  /** `String(x)` / `x.toString()` for the numbers above. */
  function NumberToString(x: Number): string {
    match x
    case Int(n) => ShowInt(n)
    case NaN => "NaN"
  }

  /** A string is truthy in JavaScript and Python iff it is non-empty. */
  predicate Truthy(s: string) { s != "" }

  /** `a || b` on optional strings: a missing or empty string falls through. */
  function OrElse(a: Option<string>, b: string): string {
    if a.Some? && a.value != "" then a.value else b
  }

  predicate StartsWith(s: string, prefix: string) {
    |prefix| <= |s| && s[..|prefix|] == prefix
  }

  predicate IsDigit(c: char) { '0' <= c <= '9' }

  /** ASCII whitespace as removed by `trim()`, `strip()` and `parseInt`. */
  predicate IsSpace(c: char) {
    c == ' ' || c == '\t' || c == '\n' || c == '\r' || c == '\U{000B}' || c == '\U{000C}'
  }

  /** Characters the regular-expression `.` does not match. */
  predicate IsLineTerminator(c: char) {
    c == '\n' || c == '\r' || c == '\U{2028}' || c == '\U{2029}'
  }

  // ---------------------------------------------------------------- split

  /** `s.split(sep)` for a one-character separator: every maximal run of
      non-separator characters, including the empty runs around adjacent
      separators and at both ends. */
  function Split(s: string, sep: char): (parts: seq<string>)
    ensures |parts| >= 1
  {
    if |s| == 0 then [""] else PushChar(s[0], Split(s[1..], sep), sep)
  }

  /** The pieces of `[c] + t` from those of `t`: a separator opens a new empty
      first piece, any other character joins the first piece. */
  function PushChar(c: char, rest: seq<string>, sep: char): seq<string>
    requires |rest| >= 1
  {
    if c == sep then [""] + rest else [[c] + rest[0]] + rest[1..]
  }

  /** No piece contains the separator. */
  lemma {:induction false} SplitPartsWithoutSeparator(s: string, sep: char, i: nat)
    requires i < |Split(s, sep)|
    ensures sep !in Split(s, sep)[i]
  {
    if |s| > 0 {
      var rest := Split(s[1..], sep);
      if s[0] == sep {
        if i > 0 {
          SplitPartsWithoutSeparator(s[1..], sep, i - 1);
        }
      } else if i == 0 {
        SplitPartsWithoutSeparator(s[1..], sep, 0);
        assert Split(s, sep)[0] == [s[0]] + rest[0];
      } else {
        SplitPartsWithoutSeparator(s[1..], sep, i);
        assert Split(s, sep)[i] == rest[i];
      }
    }
  }

  /** `parts.join(sep)`. */
  function Join(parts: seq<string>, sep: char): string
    requires |parts| >= 1
  {
    if |parts| == 1 then parts[0] else parts[0] + [sep] + Join(parts[1..], sep)
  }

  /** Splitting loses nothing: joining the pieces with the separator gives the
      original string back. */
  lemma {:induction false} JoinSplit(s: string, sep: char)
    ensures Join(Split(s, sep), sep) == s
  {
    if |s| > 0 {
      JoinSplit(s[1..], sep);
      var rest := Split(s[1..], sep);
      if s[0] == sep {
        assert Split(s, sep) == [""] + rest;
        assert ([""] + rest)[1..] == rest;
      } else {
        var parts := [[s[0]] + rest[0]] + rest[1..];
        assert Split(s, sep) == parts;
        if |rest| == 1 {
          assert parts == [[s[0]] + rest[0]];
        } else {
          assert parts[1..] == rest[1..];
          assert Join(rest, sep) == rest[0] + [sep] + Join(rest[1..], sep);
        }
      }
    }
  }

  /** Pushing a character onto the pieces only touches the first piece, so
      it commutes with appending more pieces. */
  lemma PushCharAppend(c: char, rest: seq<string>, sep: char, right: seq<string>)
    requires |rest| >= 1
    ensures PushChar(c, rest + right, sep) == PushChar(c, rest, sep) + right
  {
    if c != sep {
      assert (rest + right)[1..] == rest[1..] + right;
    }
  }

  /** Cutting at one separator splits the two sides apart: the pieces of
      `a + sep + b` are those of `a` followed by those of `b`. */
  lemma {:induction false} SplitConcat(a: string, sep: char, b: string)
    ensures Split(a + [sep] + b, sep) == Split(a, sep) + Split(b, sep)
  {
    var s := a + [sep] + b;
    if |a| == 0 {
      assert s[0] == sep && s[1..] == b;
    } else {
      assert s[0] == a[0] && s[1..] == a[1..] + [sep] + b;
      SplitConcat(a[1..], sep, b);
      PushCharAppend(a[0], Split(a[1..], sep), sep, Split(b, sep));
    }
  }

  /** Splitting a string without the separator yields the string itself. */
  lemma {:induction false} SplitWithoutSeparator(s: string, sep: char)
    requires sep !in s
    ensures Split(s, sep) == [s]
  {
    if |s| > 0 {
      SplitWithoutSeparator(s[1..], sep);
      assert [s[0]] + s[1..] == s;
    }
  }

  /** Pieces free of the separator come back from joining and splitting. */
  lemma {:induction false} SplitJoin(parts: seq<string>, sep: char)
    requires |parts| >= 1
    requires forall i :: 0 <= i < |parts| ==> sep !in parts[i]
    ensures Split(Join(parts, sep), sep) == parts
  {
    SplitWithoutSeparator(parts[0], sep);
    if |parts| > 1 {
      SplitJoin(parts[1..], sep);
      SplitConcat(parts[0], sep, Join(parts[1..], sep));
      assert [parts[0]] + parts[1..] == parts;
    }
  }

  // ---------------------------------------------------------------- trim

  /** How many whitespace characters open `s`. */
  function LeadingSpace(s: string): (k: nat)
    ensures k <= |s|
  {
    if |s| > 0 && IsSpace(s[0]) then 1 + LeadingSpace(s[1..]) else 0
  }

  /** How many whitespace characters close `s`. */
  function TrailingSpace(s: string): (k: nat)
    ensures k <= |s|
  {
    if |s| > 0 && IsSpace(s[|s| - 1]) then 1 + TrailingSpace(s[..|s| - 1]) else 0
  }

  /** The leading run is all whitespace and stops at a non-space. */
  lemma {:induction false} LeadingSpaceRun(s: string, i: nat)
    ensures i < LeadingSpace(s) ==> IsSpace(s[i])
    ensures LeadingSpace(s) < |s| ==> !IsSpace(s[LeadingSpace(s)])
  {
    if |s| > 0 && IsSpace(s[0]) {
      LeadingSpaceRun(s[1..], if i > 0 then i - 1 else 0);
    }
  }

  /** The trailing run is all whitespace and stops at a non-space. */
  lemma {:induction false} TrailingSpaceRun(s: string, i: nat)
    ensures |s| - TrailingSpace(s) <= i < |s| ==> IsSpace(s[i])
    ensures TrailingSpace(s) < |s| ==> !IsSpace(s[|s| - TrailingSpace(s) - 1])
  {
    if |s| > 0 && IsSpace(s[|s| - 1]) {
      TrailingSpaceRun(s[..|s| - 1], i);
    }
  }

  /** Drops leading whitespace (`trimStart`, `lstrip`). */
  function TrimStart(s: string): string {
    s[LeadingSpace(s)..]
  }

  /** Drops trailing whitespace (`trimEnd`, `rstrip`). */
  function TrimEnd(s: string): string {
    s[..|s| - TrailingSpace(s)]
  }

  /** `s.trim()` in JavaScript, `s.strip()` in Python. */
  function Trim(s: string): string {
    TrimEnd(TrimStart(s))
  }

  /** The trimmed string is the window of `s` after its leading whitespace,
      and it neither starts nor ends with whitespace. */
  lemma TrimShape(s: string)
    ensures var r := Trim(s);
      && LeadingSpace(s) + |r| <= |s|
      && r == s[LeadingSpace(s)..LeadingSpace(s) + |r|]
      && (r == [] || (!IsSpace(r[0]) && !IsSpace(r[|r| - 1])))
  {
    var t := TrimStart(s);
    var r := Trim(s);
    LeadingSpaceRun(s, 0);
    TrailingSpaceRun(t, 0);
    if r != [] {
      assert r[0] == t[0] == s[LeadingSpace(s)];
      assert r[|r| - 1] == t[|t| - TrailingSpace(t) - 1];
    }
  }

  /** Only whitespace is removed: every character of `s` outside the trimmed
      window is a space. */
  lemma TrimDropsOnlySpace(s: string, k: nat)
    requires k < |s| && !(LeadingSpace(s) <= k < LeadingSpace(s) + |Trim(s)|)
    ensures IsSpace(s[k])
  {
    var lead := LeadingSpace(s);
    var t := TrimStart(s);
    if k < lead {
      LeadingSpaceRun(s, k);
    } else {
      assert s[k] == t[k - lead];
      TrailingSpaceRun(t, k - lead);
    }
  }

  /** Trimming is idempotent: a trimmed string is its own trim. */
  lemma TrimIdempotent(s: string)
    ensures Trim(Trim(s)) == Trim(s)
  {
    var r := Trim(s);
    TrimShape(s);
    assert LeadingSpace(r) == 0;
    assert TrimStart(r) == r;
    assert TrailingSpace(r) == 0;
  }

  /** `pieces.map(s => s.trim()).filter(s => s)` in JavaScript,
      `[p.strip() for p in pieces if p.strip()]` in Python. */
  function TrimNonEmpty(pieces: seq<string>): (r: seq<string>)
    ensures forall i :: 0 <= i < |r| ==> r[i] != ""
  {
    if |pieces| == 0 then []
    else
      var t := Trim(pieces[0]);
      if t == "" then TrimNonEmpty(pieces[1..]) else [t] + TrimNonEmpty(pieces[1..])
  }

  /** `t` is the non-blank trim of some piece. */
  predicate TrimsTo(pieces: seq<string>, t: string) {
    t != "" && exists i :: 0 <= i < |pieces| && Trim(pieces[i]) == t
  }

  lemma TrimsToCons(pieces: seq<string>, t: string)
    requires |pieces| > 0
    ensures TrimsTo(pieces, t) <==> (t != "" && Trim(pieces[0]) == t) || TrimsTo(pieces[1..], t)
  {
    var tail := pieces[1..];
    if TrimsTo(pieces, t) {
      var i :| 0 <= i < |pieces| && Trim(pieces[i]) == t;
      if i > 0 {
        assert tail[i - 1] == pieces[i];
        assert TrimsTo(tail, t);
      }
    }
    if TrimsTo(tail, t) {
      var i :| 0 <= i < |tail| && Trim(tail[i]) == t;
      assert pieces[i + 1] == tail[i];
      assert TrimsTo(pieces, t);
    }
  }

  /** Every non-blank piece survives, trimmed, and nothing else does. */
  lemma {:induction false} TrimNonEmptyMembers(pieces: seq<string>, t: string)
    ensures t in TrimNonEmpty(pieces) <==> TrimsTo(pieces, t)
  {
    if |pieces| > 0 {
      TrimNonEmptyMembers(pieces[1..], t);
      TrimsToCons(pieces, t);
      var u := Trim(pieces[0]);
      var rest := TrimNonEmpty(pieces[1..]);
      if u == "" {
        assert TrimNonEmpty(pieces) == rest;
      } else {
        assert TrimNonEmpty(pieces) == [u] + rest;
        assert t in [u] + rest <==> t == u || t in rest;
      }
    }
  }

  /** Trimming and dropping blanks works piece by piece, so the survivors
      keep their order. */
  lemma {:induction false} TrimNonEmptyAppend(a: seq<string>, b: seq<string>)
    ensures TrimNonEmpty(a + b) == TrimNonEmpty(a) + TrimNonEmpty(b)
  {
    if |a| == 0 {
      assert a + b == b;
    } else {
      assert (a + b)[1..] == a[1..] + b;
      TrimNonEmptyAppend(a[1..], b);
    }
  }

  /** The survivors are trimmed already, and a character no piece has is in
      none of them. */
  lemma {:induction false} TrimNonEmptyShape(pieces: seq<string>, c: char)
    requires forall i :: 0 <= i < |pieces| ==> c !in pieces[i]
    ensures forall i :: 0 <= i < |TrimNonEmpty(pieces)| ==>
      Trim(TrimNonEmpty(pieces)[i]) == TrimNonEmpty(pieces)[i] && c !in TrimNonEmpty(pieces)[i]
  {
    if |pieces| > 0 {
      TrimNonEmptyShape(pieces[1..], c);
      var t := Trim(pieces[0]);
      TrimIdempotent(pieces[0]);
      TrimShape(pieces[0]);
    }
  }

  /** Pieces that are non-blank and trimmed already pass through unchanged. */
  lemma {:induction false} TrimNonEmptyKeeps(pieces: seq<string>)
    requires forall i :: 0 <= i < |pieces| ==> pieces[i] != "" && Trim(pieces[i]) == pieces[i]
    ensures TrimNonEmpty(pieces) == pieces
  {
    if |pieces| > 0 {
      TrimNonEmptyKeeps(pieces[1..]);
      assert [pieces[0]] + pieces[1..] == pieces;
    }
  }

  // ---------------------------------------------------------------- integers

  function DigitValue(c: char): nat
    requires IsDigit(c)
  {
    (c as int - '0' as int) as nat
  }

  function DigitChar(d: nat): (c: char)
    requires d < 10
    ensures IsDigit(c) && DigitValue(c) == d
  {
    ('0' as int + d) as char
  }

  /** The value of a string of decimal digits, read most significant first. */
  function DigitsValue(ds: string): nat
    requires forall i :: 0 <= i < |ds| ==> IsDigit(ds[i])
  {
    if |ds| == 0 then 0
    else DigitsValue(ds[..|ds| - 1]) * 10 + DigitValue(ds[|ds| - 1])
  }

  /** The length of the longest prefix of `s` made of decimal digits. */
  function DigitRun(s: string): (k: nat)
    ensures k <= |s|
    ensures forall i :: 0 <= i < k ==> IsDigit(s[i])
    ensures k == |s| || !IsDigit(s[k])
  {
    if |s| > 0 && IsDigit(s[0]) then 1 + DigitRun(s[1..]) else 0
  }

  /** The decimal digits of a natural number, without leading zeros. */
  function ShowNat(n: nat): (ds: string)
    ensures |ds| >= 1
    ensures forall i :: 0 <= i < |ds| ==> IsDigit(ds[i])
  {
    if n < 10 then [DigitChar(n)] else ShowNat(n / 10) + [DigitChar(n % 10)]
  }

  /** `n.toString()` for an integer. */
  function ShowInt(n: int): (s: string)
    ensures |s| >= 1
  {
    if n < 0 then "-" + ShowNat(-n) else ShowNat(n)
  }

  /** The number read from the leading digits of `s`, NaN when there are none. */
  function ParseDigits(s: string): Number {
    var k := DigitRun(s);
    if k == 0 then NaN else Int(DigitsValue(s[..k]))
  }

  /** `parseInt(s, 10)`: skip leading whitespace, read an optional sign, then
      the longest run of decimal digits; trailing characters are ignored; no
      digits gives NaN. */
  function ParseInt(s: string): (x: Number)
    ensures x.Int? ==> exists i :: 0 <= i < |s| && IsDigit(s[i])
  {
    var t := TrimStart(s);
    var start := if |t| > 0 && (t[0] == '-' || t[0] == '+') then 1 else 0;
    var digits := ParseDigits(t[start..]);
    if digits.Int? then
      assert IsDigit(t[start..][0]) && t[start..][0] == s[|s| - |t| + start];
      if start == 1 && t[0] == '-' then Int(-digits.n) else digits
    else NaN
  }

  lemma {:induction false} DigitsValueShowNat(n: nat)
    ensures DigitsValue(ShowNat(n)) == n
  {
    if n >= 10 {
      DigitsValueShowNat(n / 10);
      var ds := ShowNat(n);
      assert ds[..|ds| - 1] == ShowNat(n / 10);
    }
  }

  lemma {:induction false} DigitRunAllDigits(s: string)
    requires forall i :: 0 <= i < |s| ==> IsDigit(s[i])
    ensures DigitRun(s) == |s|
  {
    if |s| > 0 {
      DigitRunAllDigits(s[1..]);
    }
  }

  /** A string of digits alone is read as its value. */
  lemma ParseDigitsAll(ds: string)
    requires |ds| >= 1 && forall i :: 0 <= i < |ds| ==> IsDigit(ds[i])
    ensures ParseDigits(ds) == Int(DigitsValue(ds))
  {
    DigitRunAllDigits(ds);
    assert ds[..|ds|] == ds;
  }

  /** `parseInt` reads back what `toString` wrote, for every integer: the
      round trip on which the `stock_<size>` metadata convention rests. */
  lemma ParseShowInt(n: int)
    ensures ParseInt(ShowInt(n)) == Int(n)
  {
    var m: nat := if n < 0 then -n else n;
    var ds := ShowNat(m);
    ParseDigitsAll(ds);
    DigitsValueShowNat(m);
    var s := ShowInt(n);
    assert LeadingSpace(s) == 0 by {
      assert !IsSpace(s[0]);
    }
    assert TrimStart(s) == s;
    if n < 0 {
      assert s[0] == '-' && s[1..] == ds;
    } else {
      assert s == ds && IsDigit(s[0]);
    }
  }

  /** The string written for NaN does not read back as a number. */
  lemma ParseNaNString()
    ensures ParseInt(NumberToString(NaN)) == NaN
  {
    var s := NumberToString(NaN);
    assert TrimStart(s) == s;
    assert DigitRun(s) == 0;
  }
}
