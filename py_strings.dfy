/** Python string operations used by the client, with the laws the model relies on:
    `str.isspace`, `str.startswith`, `str.strip`, `str.split()` (on whitespace runs),
    `str.split(sep)` and `sep.join`, `str(int)`, and ASCII `upper`/`lower`. */
module PyStrings {
  import opened PyRuntime

  /** The characters for which Python's `str.isspace` holds. */
  predicate IsSpace(c: char) {
    ('\U{0009}' <= c <= '\U{000D}') || ('\U{001C}' <= c <= '\U{0020}')
    || c == '\U{0085}' || c == '\U{00A0}' || c == '\U{1680}'
    || ('\U{2000}' <= c <= '\U{200A}') || c == '\U{2028}' || c == '\U{2029}'
    || c == '\U{202F}' || c == '\U{205F}' || c == '\U{3000}'
  }

  predicate NoSpace(s: string) {
    forall i :: 0 <= i < |s| ==> !IsSpace(s[i])
  }

  /** `s.startswith(prefix)`. */
  predicate StartsWith(s: string, prefix: string) {
    |prefix| <= |s| && s[..|prefix|] == prefix
  }

  /** `s.rstrip()`: drops the trailing whitespace and nothing else. */
  function TrimEnd(s: string): (r: string)
    ensures |r| <= |s| && r == s[..|r|]
    ensures r == [] || !IsSpace(r[|r| - 1])
    ensures forall i :: |r| <= i < |s| ==> IsSpace(s[i])
  {
    if s == [] || !IsSpace(s[|s| - 1]) then s else TrimEnd(s[..|s| - 1])
  }

  /** `s.lstrip()`: drops the leading whitespace and nothing else. */
  function TrimStart(s: string): (r: string)
    ensures |r| <= |s| && r == s[|s| - |r|..]
    ensures r == [] || !IsSpace(r[0])
    ensures forall i :: 0 <= i < |s| - |r| ==> IsSpace(s[i])
  {
    if s == [] || !IsSpace(s[0]) then s else TrimStart(s[1..])
  }

  /** `s.strip()`. */
  function Strip(s: string): (r: string)
    ensures r == [] || (!IsSpace(r[0]) && !IsSpace(r[|r| - 1]))
  {
    TrimStart(TrimEnd(s))
  }

  /** A string holding a non-whitespace character does not strip to nothing. */
  lemma StripNonEmpty(s: string, i: nat)
    requires i < |s| && !IsSpace(s[i])
    ensures Strip(s) != []
  {
    var e := TrimEnd(s);
    assert i < |e| && e[i] == s[i];
  }

  /** Start of the run of non-whitespace characters that ends `s`. */
  function WordStart(s: string): (k: nat)
    ensures k <= |s|
    ensures forall i :: k <= i < |s| ==> !IsSpace(s[i])
    ensures k == 0 || IsSpace(s[k - 1])
    ensures s != [] && !IsSpace(s[|s| - 1]) ==> k < |s|
  {
    if s == [] || IsSpace(s[|s| - 1]) then |s| else WordStart(s[..|s| - 1])
  }

  /** `s.split()`: the maximal runs of non-whitespace characters, in order. */
  function Words(s: string): (r: seq<string>)
    ensures forall k :: 0 <= k < |r| ==> r[k] != [] && NoSpace(r[k])
    ensures s != [] && !IsSpace(s[|s| - 1]) ==> r != []
    decreases |s|
  {
    if s == [] then []
    else if IsSpace(s[|s| - 1]) then Words(s[..|s| - 1])
    else
      var k := WordStart(s);
      Words(s[..k]) + [s[k..]]
  }

  /** The last word of `front + [c] + w`, for a whitespace `c` and a word `w`, is `w`. */
  lemma {:induction false} LastWord(front: string, c: char, w: string)
    requires IsSpace(c) && w != [] && NoSpace(w)
    ensures var r := Words(front + [c] + w); r != [] && r[|r| - 1] == w
  {
    var s := front + [c] + w;
    WordStartOf(front + [c], w);
    assert s[..|front| + 1] == front + [c];
    assert s[|front| + 1..] == w;
  }

  lemma {:induction false} WordStartOf(front: string, w: string)
    requires front != [] && IsSpace(front[|front| - 1]) && NoSpace(w)
    ensures WordStart(front + w) == |front|
    decreases |w|
  {
    var s := front + w;
    if w == [] {
      assert s == front;
    } else {
      assert s[..|s| - 1] == front + w[..|w| - 1];
      WordStartOf(front, w[..|w| - 1]);
    }
  }

  /** `s.split(sep)` for a one-character separator: every field, empty ones included. */
  function Split(s: string, sep: char): (r: seq<string>)
    ensures |r| >= 1
    ensures forall k :: 0 <= k < |r| ==> sep !in r[k]
  {
    if s == [] then [[]]
    else
      var rest := Split(s[1..], sep);
      if s[0] == sep then [[]] + rest else [[s[0]] + rest[0]] + rest[1..]
  }

  /** `sep.join(parts)`. */
  function Join(parts: seq<string>, sep: char): string {
    if parts == [] then []
    else if |parts| == 1 then parts[0]
    else parts[0] + [sep] + Join(parts[1..], sep)
  }

  /** Joining the fields of a split gives back the string. */
  lemma {:induction false} JoinSplit(s: string, sep: char)
    ensures Join(Split(s, sep), sep) == s
  {
    if s != [] {
      var rest := Split(s[1..], sep);
      JoinSplit(s[1..], sep);
      if s[0] == sep {
        assert Split(s, sep) == [[]] + rest;
      } else {
        var r := Split(s, sep);
        assert r == [[s[0]] + rest[0]] + rest[1..];
        if |rest| == 1 {
          assert Join(rest, sep) == rest[0];
        } else {
          assert Join(rest, sep) == rest[0] + [sep] + Join(rest[1..], sep);
          assert r[1..] == rest[1..];
        }
      }
    }
  }

  /** A field without the separator, followed by the separator, splits off as one field. */
  lemma {:induction false} SplitField(a: string, sep: char, t: string)
    requires sep !in a
    ensures Split(a + [sep] + t, sep) == [a] + Split(t, sep)
  {
    if a == [] {
      assert a + [sep] + t == [sep] + t;
      assert ([sep] + t)[1..] == t;
    } else {
      var s := a + [sep] + t;
      assert s[0] == a[0] && s[1..] == a[1..] + [sep] + t;
      SplitField(a[1..], sep, t);
      assert [a[0]] + a[1..] == a;
    }
  }

  /** A string without the separator is a single field. */
  lemma {:induction false} SplitNoSep(a: string, sep: char)
    requires sep !in a
    ensures Split(a, sep) == [a]
  {
    if a != [] {
      SplitNoSep(a[1..], sep);
      assert [a[0]] + a[1..] == a;
    }
  }

  /** Splitting the join of separator-free fields gives back the fields. */
  lemma {:induction false} SplitJoin(parts: seq<string>, sep: char)
    requires |parts| >= 1
    requires forall k :: 0 <= k < |parts| ==> sep !in parts[k]
    ensures Split(Join(parts, sep), sep) == parts
  {
    if |parts| == 1 {
      SplitNoSep(parts[0], sep);
    } else {
      SplitJoin(parts[1..], sep);
      SplitField(parts[0], sep, Join(parts[1..], sep));
      assert [parts[0]] + parts[1..] == parts;
    }
  }

  /** A split has more than one field exactly when the separator occurs. */
  lemma {:induction false} SplitHasSeveralFields(s: string, sep: char)
    ensures |Split(s, sep)| >= 2 <==> sep in s
  {
    if s != [] {
      SplitHasSeveralFields(s[1..], sep);
      assert s == [s[0]] + s[1..];
    }
  }

  /** The text before the first `c` and the text after it; `None` when `c` does not occur. */
  function SplitOnce(s: string, c: char): (r: Option<(string, string)>)
    ensures r.None? <==> c !in s
    ensures r.Some? ==> s == r.value.0 + [c] + r.value.1 && c !in r.value.0
  {
    if s == [] then None
    else if s[0] == c then Some(([], s[1..]))
    else match SplitOnce(s[1..], c)
      case None => None
      case Some(p) => Some(([s[0]] + p.0, p.1))
  }

  lemma {:induction false} SplitOnceAt(a: string, c: char, b: string)
    requires c !in a
    ensures SplitOnce(a + [c] + b, c) == Some((a, b))
  {
    if a == [] {
      assert a + [c] + b == [c] + b;
      assert ([c] + b)[1..] == b;
    } else {
      var s := a + [c] + b;
      assert s[0] == a[0] && s[1..] == a[1..] + [c] + b;
      SplitOnceAt(a[1..], c, b);
      assert [a[0]] + a[1..] == a;
    }
  }

  predicate IsDigit(c: char) { '0' <= c <= '9' }

  predicate AllDigits(s: string) {
    forall i :: 0 <= i < |s| ==> IsDigit(s[i])
  }

  function DigitChar(d: nat): (c: char)
    requires d < 10
    ensures IsDigit(c)
  {
    ('0' as int + d) as char
  }

  /** The decimal digits of `n`, most significant first, no leading zero. */
  function NatToStr(n: nat): (r: string)
    ensures |r| >= 1 && AllDigits(r)
  {
    if n < 10 then [DigitChar(n)] else NatToStr(n / 10) + [DigitChar(n % 10)]
  }

  /** `str(i)` for a Python `int`. */
  function IntToStr(i: int): (r: string)
    ensures r != [] && (r[0] == '-' <==> i < 0)
    ensures '&' !in r
  {
    if i < 0 then "-" + NatToStr(-i) else NatToStr(i)
  }

  function ParseNat(s: string): nat
    requires |s| >= 1 && AllDigits(s)
  {
    var last := (s[|s| - 1] as int - '0' as int) as nat;
    if |s| == 1 then last else ParseNat(s[..|s| - 1]) * 10 + last
  }

  /** `int(s)` for a decimal literal with an optional minus sign; `None` otherwise. */
  function ParseInt(s: string): Option<int> {
    if |s| >= 2 && s[0] == '-' && AllDigits(s[1..]) then Some(0 - ParseNat(s[1..]) as int)
    else if |s| >= 1 && AllDigits(s) then Some(ParseNat(s) as int)
    else None
  }

  lemma {:induction false} ParseNatToStr(n: nat)
    ensures ParseNat(NatToStr(n)) == n
  {
    if n >= 10 {
      var s := NatToStr(n);
      assert s[..|s| - 1] == NatToStr(n / 10);
      ParseNatToStr(n / 10);
    }
  }

  /** `int(str(i)) == i`. */
  lemma IntToStrRoundTrip(i: int)
    ensures ParseInt(IntToStr(i)) == Some(i)
  {
    if i < 0 {
      var d := NatToStr(-i);
      var s := "-" + d;
      assert s[0] == '-' && s[1..] == d;
      ParseNatToStr(-i);
      assert ParseInt(s) == Some(0 - ParseNat(d) as int);
    } else {
      var d := NatToStr(i);
      assert IsDigit(d[0]);
      ParseNatToStr(i);
      assert ParseInt(d) == Some(ParseNat(d) as int);
    }
  }

  /** `s.upper()` on ASCII letters. */
  function Upper(s: string): (r: string)
    ensures |r| == |s|
  {
    if s == [] then []
    else [if 'a' <= s[0] <= 'z' then (s[0] as int - 32) as char else s[0]] + Upper(s[1..])
  }

  /** `s.lower()` on ASCII letters. */
  function Lower(s: string): (r: string)
    ensures |r| == |s|
  {
    if s == [] then []
    else [if 'A' <= s[0] <= 'Z' then (s[0] as int + 32) as char else s[0]] + Lower(s[1..])
  }

  predicate LowerAscii(s: string) {
    forall i :: 0 <= i < |s| ==> ('a' <= s[i] <= 'z' || s[i] == '_' || '0' <= s[i] <= '9')
  }

  /** Lower-casing an upper-cased lower-case identifier gives it back. */
  lemma {:induction false} LowerUpper(s: string)
    requires LowerAscii(s)
    ensures Lower(Upper(s)) == s
  {
    if s != [] {
      LowerUpper(s[1..]);
      assert [s[0]] + s[1..] == s;
    }
  }

  lemma {:induction false} LowerConcat(a: string, b: string)
    ensures Lower(a + b) == Lower(a) + Lower(b)
  {
    if a != [] {
      assert (a + b)[1..] == a[1..] + b;
      LowerConcat(a[1..], b);
    } else {
      assert a + b == b;
    }
  }
}
