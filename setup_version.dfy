/** `get_version` of setup.py: scan the lines of the version file for the first one that
    starts with `__version__` and return its last whitespace-separated token without its
    first and last character (the quotes). Opening and reading the file is left to the
    caller: the lines, each with its line terminator, are the input. */
module SetupVersion {
  import opened PyRuntime
  import opened PyStrings

  const VersionPrefix := "__version__"

  /** Python's `t[1:-1]`, which is empty for tokens shorter than three characters. */
  function InnerSlice(t: string): (r: string)
    ensures |t| <= 2 ==> r == []
    ensures |t| > 2 ==> |r| == |t| - 2 && forall i :: 0 <= i < |r| ==> r[i] == t[i + 1]
  {
    if |t| <= 2 then [] else t[1..|t| - 1]
  }

  /** `line.strip().split()[-1][1:-1]` for a line that passed the prefix test; the test
      guarantees a token to take. */
  function ExtractVersion(line: string): (v: string)
    requires StartsWith(line, VersionPrefix)
    ensures NoSpace(v)
  {
    PrefixNotSpace(line);
    StripNonEmpty(line, 0);
    var words := Words(Strip(line));
    InnerSliceNoSpace(words[|words| - 1]);
    InnerSlice(words[|words| - 1])
  }

  /** A line with the prefix starts with a non-whitespace character. */
  lemma PrefixNotSpace(line: string)
    requires StartsWith(line, VersionPrefix)
    ensures 0 < |line| && !IsSpace(line[0])
  {
    assert line[0] == line[..|VersionPrefix|][0] == '_';
  }

  lemma InnerSliceNoSpace(t: string)
    requires NoSpace(t)
    ensures NoSpace(InnerSlice(t))
  {
    var r := InnerSlice(t);
    forall i | 0 <= i < |r| ensures !IsSpace(r[i]) {
      assert r[i] == t[i + 1];
    }
  }

  /** The prefix test is on the raw line: an indented line never matches. */
  lemma IndentedLineSkipped(line: string)
    requires line != [] && IsSpace(line[0])
    ensures !StartsWith(line, VersionPrefix)
  {
    if |VersionPrefix| <= |line| {
      assert line[..|VersionPrefix|][0] == line[0];
    }
  }

  /** `get_version()`. */
  method GetVersion(lines: seq<string>) returns (r: Result<string>)
    ensures r.Err? <==> forall i :: 0 <= i < |lines| ==> !StartsWith(lines[i], VersionPrefix)
    ensures r.Err? ==> r.error == AssertionError
    ensures r.Ok? ==>
      exists k :: && 0 <= k < |lines| && StartsWith(lines[k], VersionPrefix)
                  && (forall j :: 0 <= j < k ==> !StartsWith(lines[j], VersionPrefix))
                  && r.value == ExtractVersion(lines[k])
  {
    for i := 0 to |lines|
      invariant forall j :: 0 <= j < i ==> !StartsWith(lines[j], VersionPrefix)
    {
      var line := lines[i];
      if |VersionPrefix| <= |line| && line[..|VersionPrefix|] == VersionPrefix {
        return Ok(ExtractVersion(line));
      }
    }
    return Err(AssertionError);
  }

  /** `s.strip()` of a string whose end is only whitespace and whose kept part starts and
      ends with a non-space character. */
  lemma StripAround(a: string, tail: string)
    requires a != [] && !IsSpace(a[0]) && !IsSpace(a[|a| - 1])
    requires forall i :: 0 <= i < |tail| ==> IsSpace(tail[i])
    ensures Strip(a + tail) == a
  {
    var s := a + tail;
    var e := TrimEnd(s);
    assert s[|a| - 1] == a[|a| - 1];
    assert forall i :: |a| <= i < |s| ==> s[i] == tail[i - |a|];
    assert |e| >= |a|;
    assert e == a;
    var b := TrimStart(e);
    assert !IsSpace(e[0]);
  }

  /** A hand-written version line, split into its parts: the stripped line `a` is
      `front`, a blank and the quoted version `w`, and the terminator is blank. */
  lemma ExtractVersionOf(line: string, front: string, w: string, terminator: string)
    requires StartsWith(line, VersionPrefix)
    requires line == front + [' '] + w + terminator
    requires front != [] && !IsSpace(front[0]) && w != [] && NoSpace(w)
    requires forall i :: 0 <= i < |terminator| ==> IsSpace(terminator[i])
    ensures ExtractVersion(line) == InnerSlice(w)
  {
    var a := front + [' '] + w;
    assert a[0] == front[0] && a[|a| - 1] == w[|w| - 1];
    StripAround(a, terminator);
    LastWord(front, ' ', w);
  }

  /** The quoted version `"<v>"` is one word. */
  lemma QuotedNoSpace(v: string, quote: char)
    requires NoSpace(v) && !IsSpace(quote)
    ensures NoSpace([quote] + v + [quote]) && InnerSlice([quote] + v + [quote]) == v
  {
    var w := [quote] + v + [quote];
    forall i | 0 <= i < |w| ensures !IsSpace(w[i]) {
      if 0 < i < |w| - 1 {
        assert w[i] == v[i - 1];
      }
    }
    assert w[1..|w| - 1] == v;
  }

  /** A version line as written by hand, `__version__ = "<v>"` plus its terminator,
      gives back `<v>` for any version text free of whitespace. */
  lemma VersionLineRoundTrip(v: string, quote: char, terminator: string)
    requires NoSpace(v) && !IsSpace(quote)
    requires forall i :: 0 <= i < |terminator| ==> IsSpace(terminator[i])
    ensures var line := VersionPrefix + " = " + [quote] + v + [quote] + terminator;
      StartsWith(line, VersionPrefix) && ExtractVersion(line) == v
  {
    var front := VersionPrefix + " =";
    var w := [quote] + v + [quote];
    var line := VersionPrefix + " = " + [quote] + v + [quote] + terminator;
    assert line == front + [' '] + w + terminator;
    assert StartsWith(line, VersionPrefix) by {
      assert line[..|VersionPrefix|] == VersionPrefix;
    }
    assert front[0] == '_';
    QuotedNoSpace(v, quote);
    ExtractVersionOf(line, front, w, terminator);
  }
}
