/**
 * The JavaScript string operations the pages rely on: `trim()`, `split("\n")`,
 * `split(/\s+/)` and `toUpperCase()`, over strings of code points.
 */
module Text {

  /** The WhiteSpace and LineTerminator code points of ECMAScript: what `\s` matches and `trim()` removes. */
  predicate IsSpace(c: char) {
    || c == '\t' || c == '\n' || c == '\U{000B}' || c == '\U{000C}' || c == '\r' || c == ' '
    || c == '\U{00A0}' || c == '\U{1680}' || ('\U{2000}' <= c <= '\U{200A}')
    || c == '\U{2028}' || c == '\U{2029}' || c == '\U{202F}' || c == '\U{205F}'
    || c == '\U{3000}' || c == '\U{FEFF}'
  }

  predicate AllSpace(s: string) {
    forall k :: 0 <= k < |s| ==> IsSpace(s[k])
  }

  /** A string that `trim()` leaves as it is: empty, or neither end is white space. */
  predicate IsTrimmed(s: string) {
    s == [] || (!IsSpace(s[0]) && !IsSpace(s[|s| - 1]))
  }

  /** Drops the leading white space. */
  function TrimStart(s: string): (r: string)
    ensures |r| <= |s|
    ensures r == [] || !IsSpace(r[0])
  {
    if s == [] || !IsSpace(s[0]) then s else TrimStart(s[1..])
  }

  /** What `TrimStart` keeps is a suffix of `s`, and what it drops is all white space. */
  lemma {:induction false} TrimStartSuffix(s: string)
    ensures TrimStart(s) == s[|s| - |TrimStart(s)|..]
    ensures AllSpace(s[..|s| - |TrimStart(s)|])
  {
    if s != [] && IsSpace(s[0]) {
      TrimStartSuffix(s[1..]);
      assert s[1..][..|s| - 1 - |TrimStart(s)|] == s[1..|s| - |TrimStart(s)|];
    }
  }

  /** Drops the trailing white space. */
  function TrimEnd(s: string): (r: string)
    ensures |r| <= |s|
    ensures r == [] || !IsSpace(r[|r| - 1])
  {
    if s == [] || !IsSpace(s[|s| - 1]) then s else TrimEnd(s[..|s| - 1])
  }

  /** What `TrimEnd` keeps is a prefix of `s`, and what it drops is all white space. */
  lemma {:induction false} TrimEndPrefix(s: string)
    ensures TrimEnd(s) == s[..|TrimEnd(s)|]
    ensures AllSpace(s[|TrimEnd(s)|..])
  {
    if s != [] && IsSpace(s[|s| - 1]) {
      TrimEndPrefix(s[..|s| - 1]);
      assert s[..|s| - 1][|TrimEnd(s)|..] == s[|TrimEnd(s)|..|s| - 1];
    }
  }

  /** `s.trim()`. */
  function Trim(s: string): (r: string)
    ensures IsTrimmed(r)
    ensures r == [] <==> AllSpace(s)
  {
    TrimStartSuffix(s);
    var t := TrimStart(s);
    TrimEndPrefix(t);
    var r := TrimEnd(t);
    assert AllSpace(s) ==> t == [] by {
      if AllSpace(s) && t != [] {
        assert false;
      }
    }
    assert r == [] ==> AllSpace(s) by {
      if r == [] {
        if t != [] {
          assert false;
        }
        assert s[..|s|] == s;
      }
    }
    r
  }

  /** What `trim()` removes: the result is a slice of the input, and everything cut off on
      either side of it is white space. */
  lemma TrimSlice(s: string)
    ensures exists i, j :: 0 <= i <= j <= |s| && Trim(s) == s[i..j] && AllSpace(s[..i]) && AllSpace(s[j..])
  {
    TrimStartSuffix(s);
    var t := TrimStart(s);
    TrimEndPrefix(t);
    var i := |s| - |t|;
    var j := i + |TrimEnd(t)|;
    assert t == s[i..];
    assert Trim(s) == s[i..j];
    assert s[j..] == t[|TrimEnd(t)|..];
  }

  /** Trimming is idempotent, and a trimmed string is its own trim. */
  lemma {:induction false} TrimOfTrimmed(s: string)
    requires IsTrimmed(s)
    ensures Trim(s) == s
  {
    assert TrimStart(s) == s;
    assert TrimEnd(s) == s;
  }

  lemma TrimIdempotent(s: string)
    ensures Trim(Trim(s)) == Trim(s)
  {
    TrimOfTrimmed(Trim(s));
  }

  // ---------------------------------------------------------------------------
  // split("\n") and its inverse

  /** `s.split(sep)` for a one-character separator: the fields between separators, at least one. */
  function SplitOn(s: string, sep: char): (r: seq<string>)
    ensures |r| >= 1
    ensures forall i :: 0 <= i < |r| ==> sep !in r[i]
  {
    if s == [] then [""]
    else
      var rest := SplitOn(s[1..], sep);
      if s[0] == sep then [""] + rest else [[s[0]] + rest[0]] + rest[1..]
  }

  /** `parts.join(sep)`. */
  function Join(parts: seq<string>, sep: char): string
    requires |parts| >= 1
  {
    if |parts| == 1 then parts[0] else parts[0] + [sep] + Join(parts[1..], sep)
  }

  /** Splitting and joining again gives back the original string. */
  lemma {:induction false} JoinSplit(s: string, sep: char)
    ensures Join(SplitOn(s, sep), sep) == s
  {
    if s != [] {
      var rest := SplitOn(s[1..], sep);
      JoinSplit(s[1..], sep);
      if s[0] == sep {
        assert SplitOn(s, sep)[1..] == rest;
      } else {
        var r := SplitOn(s, sep);
        if |rest| == 1 {
          assert r == [[s[0]] + rest[0]];
        } else {
          assert r[1..] == rest[1..];
          assert Join(rest, sep) == rest[0] + [sep] + Join(rest[1..], sep);
        }
      }
    }
  }

  /** A string without the separator is a single field. */
  lemma {:induction false} SplitWithoutSeparator(s: string, sep: char)
    requires sep !in s
    ensures SplitOn(s, sep) == [s]
  {
    if s != [] {
      SplitWithoutSeparator(s[1..], sep);
      assert [s[0]] + s[1..] == s;
    }
  }

  /** Splitting a field that holds no separator, followed by anything, extends that field's first field. */
  lemma {:induction false} SplitPrefix(a: string, rest: string, sep: char)
    requires sep !in a
    ensures SplitOn(a + rest, sep) == [a + SplitOn(rest, sep)[0]] + SplitOn(rest, sep)[1..]
  {
    if a != [] {
      SplitPrefix(a[1..], rest, sep);
      assert (a + rest)[1..] == a[1..] + rest;
      assert [a[0]] + (a[1..] + SplitOn(rest, sep)[0]) == a + SplitOn(rest, sep)[0];
    } else {
      var r := SplitOn(rest, sep);
      assert a + rest == rest && a + r[0] == r[0];
      assert r == [r[0]] + r[1..];
    }
  }

  /** Joining fields that hold no separator and splitting again gives back the fields. */
  lemma {:induction false} SplitJoin(parts: seq<string>, sep: char)
    requires |parts| >= 1
    requires forall i :: 0 <= i < |parts| ==> sep !in parts[i]
    ensures SplitOn(Join(parts, sep), sep) == parts
  {
    if |parts| == 1 {
      SplitWithoutSeparator(parts[0], sep);
    } else {
      var tail := Join(parts[1..], sep);
      SplitJoin(parts[1..], sep);
      assert Join(parts, sep) == parts[0] + ([sep] + tail);
      SplitPrefix(parts[0], [sep] + tail, sep);
      assert SplitOn([sep] + tail, sep) == [""] + parts[1..] by {
        assert ([sep] + tail)[1..] == tail;
      }
      assert parts[0] + "" == parts[0];
      assert parts == [parts[0]] + parts[1..];
    }
  }

  /** `parts.map(s => s.trim())`. */
  function TrimEach(parts: seq<string>): (r: seq<string>)
    ensures |r| == |parts|
  {
    if parts == [] then [] else [Trim(parts[0])] + TrimEach(parts[1..])
  }

  /** Every string `TrimEach` gives is trimmed. */
  lemma {:induction false} TrimEachAllTrimmed(parts: seq<string>)
    ensures forall k :: 0 <= k < |TrimEach(parts)| ==> IsTrimmed(TrimEach(parts)[k])
  {
    if parts != [] {
      TrimEachAllTrimmed(parts[1..]);
      assert TrimEach(parts) == [Trim(parts[0])] + TrimEach(parts[1..]);
    }
  }

  /** Trimming each string distributes over concatenation. */
  lemma {:induction false} TrimEachAppend(x: seq<string>, y: seq<string>)
    ensures TrimEach(x + y) == TrimEach(x) + TrimEach(y)
  {
    if x != [] {
      TrimEachAppend(x[1..], y);
      assert (x + y)[1..] == x[1..] + y;
    } else {
      assert x + y == y;
    }
  }

  /** Trimming strings that are already trimmed changes none of them. */
  lemma {:induction false} TrimEachTrimmed(parts: seq<string>)
    requires forall k :: 0 <= k < |parts| ==> IsTrimmed(parts[k])
    ensures TrimEach(parts) == parts
  {
    if parts != [] {
      TrimOfTrimmed(parts[0]);
      TrimEachTrimmed(parts[1..]);
      assert parts == [parts[0]] + parts[1..];
    }
  }

  // ---------------------------------------------------------------------------
  // split(/\s+/) and counting words

  /** `s.split(/\s+/)`: the fields between maximal runs of white space (a leading or trailing run gives an empty field). */
  function SplitOnSpaceRuns(s: string): (r: seq<string>)
    ensures |r| >= 1
    ensures s != [] && IsSpace(s[0]) ==> r[0] == ""
    ensures forall i, k :: 0 <= i < |r| && 0 <= k < |r[i]| ==> !IsSpace(r[i][k])
  {
    if s == [] then [""]
    else
      var rest := SplitOnSpaceRuns(s[1..]);
      if IsSpace(s[0]) then
        (if |s| > 1 && IsSpace(s[1]) then rest else [""] + rest)
      else
        [[s[0]] + rest[0]] + rest[1..]
  }

  /** `.filter(w => w.length > 0)`. */
  function NonEmpty(parts: seq<string>): (r: seq<string>)
    ensures forall i :: 0 <= i < |r| ==> r[i] != ""
    ensures forall i :: 0 <= i < |r| ==> r[i] in parts
  {
    if parts == [] then []
    else (if parts[0] == "" then [] else [parts[0]]) + NonEmpty(parts[1..])
  }

  /**
   * The reference count of words, independent of `split`: the number of positions
   * where a non-white-space character follows white space or the start.
   * `inWord` says whether the previous character was part of a word.
   */
  function CountRuns(s: string, inWord: bool): nat {
    if s == [] then 0
    else if IsSpace(s[0]) then CountRuns(s[1..], false)
    else (if inWord then 0 else 1) + CountRuns(s[1..], true)
  }

  /** The non-empty fields of `split(/\s+/)` are as many as the maximal runs of non-white-space characters. */
  lemma {:induction false} SplitRunsCount(s: string)
    ensures |NonEmpty(SplitOnSpaceRuns(s))| == CountRuns(s, false)
    ensures |NonEmpty(SplitOnSpaceRuns(s)[1..])| == CountRuns(s, true)
  {
    if s != [] {
      var rest := SplitOnSpaceRuns(s[1..]);
      SplitRunsCount(s[1..]);
      var r := SplitOnSpaceRuns(s);
      if IsSpace(s[0]) {
        if |s| > 1 && IsSpace(s[1]) {
          assert rest[0] == "";
          assert rest == [rest[0]] + rest[1..];
          assert NonEmpty(rest) == NonEmpty(rest[1..]);
        } else {
          assert r[1..] == rest;
        }
      } else {
        assert r[1..] == rest[1..];
        assert r == [r[0]] + r[1..];
      }
    }
  }

  /** Keeping the non-empty fields of a list without empty fields keeps the list. */
  lemma {:induction false} NonEmptyKeepsAll(parts: seq<string>)
    requires forall i :: 0 <= i < |parts| ==> parts[i] != ""
    ensures NonEmpty(parts) == parts
  {
    if parts != [] {
      NonEmptyKeepsAll(parts[1..]);
      assert parts == [parts[0]] + parts[1..];
    }
  }

  /** Filtering distributes over concatenation. */
  lemma {:induction false} NonEmptyAppend(x: seq<string>, y: seq<string>)
    ensures NonEmpty(x + y) == NonEmpty(x) + NonEmpty(y)
  {
    if x != [] {
      NonEmptyAppend(x[1..], y);
      assert (x + y)[1..] == x[1..] + y;
    } else {
      assert x + y == y;
    }
  }

  /** Only white space contains no word. */
  lemma {:induction false} CountRunsZero(s: string)
    requires CountRuns(s, false) == 0
    ensures AllSpace(s)
  {
    if s != [] {
      CountRunsZero(s[1..]);
      assert s == [s[0]] + s[1..];
    }
  }

  /** A block of white space contains no word. */
  lemma {:induction false} CountRunsAllSpace(w: string, inWord: bool)
    requires AllSpace(w)
    ensures CountRuns(w, inWord) == 0
  {
    if w != [] {
      CountRunsAllSpace(w[1..], false);
    }
  }

  /** Appending white space adds no word. */
  lemma {:induction false} CountRunsTrailingSpace(s: string, w: string, inWord: bool)
    requires AllSpace(w)
    ensures CountRuns(s + w, inWord) == CountRuns(s, inWord)
  {
    if s == [] {
      assert s + w == w;
      CountRunsAllSpace(w, inWord);
    } else {
      assert (s + w)[1..] == s[1..] + w;
      CountRunsTrailingSpace(s[1..], w, !IsSpace(s[0]));
    }
  }

  /** Leading white space adds no word. */
  lemma {:induction false} CountRunsTrimStart(s: string)
    ensures CountRuns(TrimStart(s), false) == CountRuns(s, false)
  {
    if s != [] && IsSpace(s[0]) {
      CountRunsTrimStart(s[1..]);
    }
  }

  /** Trimming does not change the number of words. */
  lemma CountRunsTrim(s: string)
    ensures CountRuns(Trim(s), false) == CountRuns(s, false)
  {
    var t := TrimStart(s);
    var r := TrimEnd(t);
    TrimEndPrefix(t);
    assert t == r + t[|r|..];
    CountRunsTrailingSpace(r, t[|r|..], false);
    CountRunsTrimStart(s);
  }

  // ---------------------------------------------------------------------------
  // toUpperCase()

  /** The case mapping of `toUpperCase()` on the Latin letters a-z; other characters are kept. */
  function UpperChar(c: char): char {
    if 'a' <= c <= 'z' then (c as int - 32) as char else c
  }

  /** `s.toUpperCase()`, for strings whose only cased letters are a-z. */
  function ToUpper(s: string): (r: string)
    ensures |r| == |s|
    ensures forall k :: 0 <= k < |s| ==> r[k] == UpperChar(s[k])
  {
    if s == [] then [] else [UpperChar(s[0])] + ToUpper(s[1..])
  }

  /** A non-negative integer in decimal, as template literals print it. */
  function NatToDecimal(n: nat): string {
    if n < 10 then [('0' as int + n) as char]
    else NatToDecimal(n / 10) + [('0' as int + n % 10) as char]
  }

  /** An integer in decimal, as template literals print it. */
  function IntToDecimal(n: int): string {
    if n < 0 then "-" + NatToDecimal(-n) else NatToDecimal(n)
  }
}
