/** The part of Go's `strings` package (and goquery's class test) that the
    scrapers use. Strings are sequences of code points; every separator the
    scrapers use is ASCII, so splitting code points and splitting UTF-8 bytes
    agree. */
module GoStrings {
  import opened Wrappers

  /** The code-point ranges `unicode.IsSpace` accepts: the Latin-1 spaces
      and the rest of the Unicode White_Space set, in increasing order. */
  function SpaceRange(k: nat): (int, int)
    requires k < 10
  {
    [(0x09, 0x0D), (0x20, 0x20), (0x85, 0x85), (0xA0, 0xA0), (0x1680, 0x1680),
     (0x2000, 0x200A), (0x2028, 0x2029), (0x202F, 0x202F), (0x205F, 0x205F), (0x3000, 0x3000)][k]
  }

  /** `n` lies in one of the ranges from the `k`-th on. */
  predicate InSpaceRanges(n: int, k: nat)
    decreases 10 - k
  {
    k < 10 && (SpaceRange(k).0 <= n <= SpaceRange(k).1 || InSpaceRanges(n, k + 1))
  }

  /** `unicode.IsSpace`. */
  predicate IsSpace(c: char) {
    InSpaceRanges(c as int, 0)
  }

  /** The ranges written out. */
  lemma IsSpaceRanges(c: char)
    ensures var n := c as int;
      IsSpace(c) <==>
        || 0x09 <= n <= 0x0D || n == 0x20 || n == 0x85 || n == 0xA0 || n == 0x1680
        || 0x2000 <= n <= 0x200A || n == 0x2028 || n == 0x2029 || n == 0x202F
        || n == 0x205F || n == 0x3000
  {
    var n := c as int;
    assert !InSpaceRanges(n, 10);
    assert InSpaceRanges(n, 9) <==> n == 0x3000;
    assert InSpaceRanges(n, 8) <==> n == 0x205F || InSpaceRanges(n, 9);
    assert InSpaceRanges(n, 7) <==> n == 0x202F || InSpaceRanges(n, 8);
    assert InSpaceRanges(n, 6) <==> 0x2028 <= n <= 0x2029 || InSpaceRanges(n, 7);
    assert InSpaceRanges(n, 5) <==> 0x2000 <= n <= 0x200A || InSpaceRanges(n, 6);
    assert InSpaceRanges(n, 4) <==> n == 0x1680 || InSpaceRanges(n, 5);
    assert InSpaceRanges(n, 3) <==> n == 0xA0 || InSpaceRanges(n, 4);
    assert InSpaceRanges(n, 2) <==> n == 0x85 || InSpaceRanges(n, 3);
    assert InSpaceRanges(n, 1) <==> n == 0x20 || InSpaceRanges(n, 2);
    assert InSpaceRanges(n, 0) <==> 0x09 <= n <= 0x0D || InSpaceRanges(n, 1);
  }

  /** Printable ASCII other than the blank is not white space. */
  lemma PrintableIsNotSpace(c: char)
    requires ' ' < c <= '~'
    ensures !IsSpace(c)
  {
    IsSpaceRanges(c);
  }

  predicate NoSpace(s: string) {
    forall i | 0 <= i < |s| :: !IsSpace(s[i])
  }

  predicate HasPrefix(s: string, p: string) {
    |p| <= |s| && s[..|p|] == p
  }

  predicate HasSuffix(s: string, p: string) {
    |p| <= |s| && s[|s| - |p|..] == p
  }

  /** `sep` occurs in `s` starting at position `j`. */
  predicate OccursAt(s: string, sep: string, j: int) {
    0 <= j && j + |sep| <= |s| && s[j..j + |sep|] == sep
  }

  /** `strings.Index` from position `from` on, for a non-empty separator. */
  function IndexFrom(s: string, sep: string, from: nat): (r: Option<nat>)
    requires |sep| > 0
    ensures r.Some? ==> from <= r.value && OccursAt(s, sep, r.value)
    ensures forall j | from <= j && (r.None? || j < r.value) :: !OccursAt(s, sep, j)
    decreases |s| - from
  {
    if from + |sep| > |s| then None
    else if s[from..from + |sep|] == sep then Some(from)
    else IndexFrom(s, sep, from + 1)
  }

  /** `strings.Index`: the first occurrence of `sep` in `s`, if any. */
  function Index(s: string, sep: string): (r: Option<nat>)
    requires |sep| > 0
    ensures r.Some? ==> OccursAt(s, sep, r.value)
    ensures forall j | 0 <= j && (r.None? || j < r.value) :: !OccursAt(s, sep, j)
  {
    IndexFrom(s, sep, 0)
  }

  /** `strings.Contains` for a non-empty needle. */
  predicate Contains(s: string, sub: string)
    requires |sub| > 0
  {
    Index(s, sub).Some?
  }

  /** `strings.Join`. */
  function Join(parts: seq<string>, sep: string): string {
    if |parts| == 0 then ""
    else if |parts| == 1 then parts[0]
    else parts[0] + sep + Join(parts[1..], sep)
  }

  /** A string in which `sep` does not occur at all. */
  ghost predicate Free(s: string, sep: string)
    requires |sep| > 0
  {
    forall j :: !OccursAt(s, sep, j)
  }

  /** `strings.Split` with a non-empty separator: cut at every occurrence,
      left to right. Joining the pieces back gives `s`, and no piece holds
      the separator. */
  function Split(s: string, sep: string): (r: seq<string>)
    requires |sep| > 0
    ensures |r| >= 1
    ensures Join(r, sep) == s
    ensures forall k | 0 <= k < |r| :: Free(r[k], sep)
    decreases |s|
  {
    match Index(s, sep)
    case None => [s]
    case Some(i) =>
      var rest := Split(s[i + |sep|..], sep);
      CutAtFirst(s, sep, i, rest);
      [s[..i]] + rest
  }

  /** `strings.SplitN` with n > 0: at most n pieces, the last one holding the
      rest of `s` unsplit. */
  function SplitN(s: string, sep: string, n: nat): (r: seq<string>)
    requires |sep| > 0 && n > 0
    ensures 1 <= |r| <= n
    ensures Join(r, sep) == s
    ensures forall k | 0 <= k < |r| - 1 :: Free(r[k], sep)
    ensures |r| < n ==> Free(r[|r| - 1], sep)
    decreases n
  {
    if n == 1 then [s]
    else match Index(s, sep)
      case None => [s]
      case Some(i) =>
        var rest := SplitN(s[i + |sep|..], sep, n - 1);
        CutAtFirst(s, sep, i, rest);
        [s[..i]] + rest
  }

  /** Cutting `s` at the first occurrence of `sep`, at `i`, in front of the
      pieces of what follows it. */
  lemma CutAtFirst(s: string, sep: string, i: nat, rest: seq<string>)
    requires |sep| > 0 && OccursAt(s, sep, i) && |rest| >= 1
    requires forall j | 0 <= j < i :: !OccursAt(s, sep, j)
    requires Join(rest, sep) == s[i + |sep|..]
    ensures Join([s[..i]] + rest, sep) == s
    ensures Free(s[..i], sep)
    ensures ([s[..i]] + rest)[0] == s[..i]
    ensures forall k | 1 <= k < |rest| + 1 :: ([s[..i]] + rest)[k] == rest[k - 1]
  {
    PrefixBeforeFirstIsFree(s, sep, i);
    var r := [s[..i]] + rest;
    assert r[1..] == rest;
    assert Join(r, sep) == s[..i] + sep + Join(rest, sep);
    assert s[..i] + sep + s[i + |sep|..] == s by {
      assert s[i..i + |sep|] == sep;
      assert s == s[..i] + s[i..i + |sep|] + s[i + |sep|..];
    }
  }

  lemma PrefixBeforeFirstIsFree(s: string, sep: string, i: nat)
    requires |sep| > 0 && i <= |s|
    requires forall j | 0 <= j < i :: !OccursAt(s, sep, j)
    ensures Free(s[..i], sep)
  {
    forall j | OccursAt(s[..i], sep, j)
      ensures false
    {
      assert s[..i][j..j + |sep|] == s[j..j + |sep|];
      assert OccursAt(s, sep, j);
    }
  }

  /** `strings.TrimSuffix`. */
  function TrimSuffix(s: string, suffix: string): (r: string)
    ensures HasSuffix(s, suffix) ==> r + suffix == s
    ensures !HasSuffix(s, suffix) ==> r == s
  {
    if HasSuffix(s, suffix) then s[..|s| - |suffix|] else s
  }

  function TrimLeft(s: string): (r: string)
    ensures |r| <= |s|
  {
    if |s| > 0 && IsSpace(s[0]) then TrimLeft(s[1..]) else s
  }

  function TrimRight(s: string): (r: string)
    ensures |r| <= |s|
  {
    if |s| > 0 && IsSpace(s[|s| - 1]) then TrimRight(s[..|s| - 1]) else s
  }

  /** The number of white-space characters that start `s`. */
  function LeadingSpaces(s: string): (n: nat)
    ensures n <= |s|
  {
    if |s| > 0 && IsSpace(s[0]) then 1 + LeadingSpaces(s[1..]) else 0
  }

  /** Every character of `s` before position `i` is white space. */
  predicate SpacesBefore(s: string, i: nat) {
    forall k | 0 <= k < i && k < |s| :: IsSpace(s[k])
  }

  /** Every character of `s` from position `j` on is white space. */
  predicate SpacesFrom(s: string, j: nat) {
    forall k | j <= k < |s| :: IsSpace(s[k])
  }

  /** `TrimLeft` drops exactly the leading white space. */
  lemma {:induction false} TrimLeftDropsLeading(s: string)
    ensures var i := LeadingSpaces(s);
      && TrimLeft(s) == s[i..] && SpacesBefore(s, i) && (i < |s| ==> !IsSpace(s[i]))
  {
    if |s| > 0 && IsSpace(s[0]) {
      var t := s[1..];
      TrimLeftDropsLeading(t);
      var i := LeadingSpaces(t);
      assert t[i..] == s[i + 1..];
      forall k | 0 <= k < i + 1 && k < |s|
        ensures IsSpace(s[k])
      {
        if k > 0 {
          assert s[k] == t[k - 1];
        }
      }
      if i + 1 < |s| {
        assert s[i + 1] == t[i];
      }
    }
  }

  /** `TrimRight` drops exactly the trailing white space. */
  lemma {:induction false} TrimRightDropsTrailing(s: string)
    ensures var r := TrimRight(s);
      && r == s[..|r|] && SpacesFrom(s, |r|) && (|r| > 0 ==> !IsSpace(r[|r| - 1]))
  {
    if |s| > 0 && IsSpace(s[|s| - 1]) {
      var t := s[..|s| - 1];
      TrimRightDropsTrailing(t);
      var r := TrimRight(t);
      assert t[..|r|] == s[..|r|];
      forall k | |r| <= k < |s|
        ensures IsSpace(s[k])
      {
        if k < |s| - 1 {
          assert s[k] == t[k];
        }
      }
    }
  }

  /** Trimming the right of a suffix of `s` keeps a contiguous part of `s`
      followed only by white space. */
  lemma TrimRightOfSuffix(s: string, i: nat, l: string)
    requires i <= |s| && l == s[i..]
    ensures var r := TrimRight(l);
      && i + |r| <= |s| && r == s[i..i + |r|] && SpacesFrom(s, i + |r|)
      && (|r| > 0 ==> r[0] == l[0] && !IsSpace(r[|r| - 1]))
  {
    var r := TrimRight(l);
    TrimRightDropsTrailing(l);
    forall k | i + |r| <= k < |s|
      ensures IsSpace(s[k])
    {
      assert s[k] == l[k - i];
    }
  }

  /** `r` neither starts nor ends with white space. */
  predicate NoSpaceAtEnds(r: string) {
    |r| > 0 ==> !IsSpace(r[0]) && !IsSpace(r[|r| - 1])
  }

  /** `r` is `s` without its leading and trailing white space: what is
      removed is all white space, what is kept is a contiguous part of `s`
      that neither starts nor ends with white space. */
  predicate TrimmedFrom(s: string, r: string) {
    var i := LeadingSpaces(s);
    && i + |r| <= |s| && r == s[i..i + |r|]
    && SpacesBefore(s, i) && SpacesFrom(s, i + |r|) && NoSpaceAtEnds(r)
  }

  /** `strings.TrimSpace`. */
  function TrimSpace(s: string): (r: string)
    ensures |r| <= |s|
  {
    TrimRight(TrimLeft(s))
  }

  /** What `TrimSpace` removes and what it keeps. */
  lemma TrimSpaceTrims(s: string)
    ensures TrimmedFrom(s, TrimSpace(s))
  {
    var l := TrimLeft(s);
    var i := LeadingSpaces(s);
    TrimLeftDropsLeading(s);
    TrimRightOfSuffix(s, i, l);
  }

  /** The characters of `s` that are not white space, in order. */
  function NonSpace(s: string): (r: string)
    ensures NoSpace(r)
  {
    if |s| == 0 then ""
    else if IsSpace(s[0]) then NonSpace(s[1..])
    else [s[0]] + NonSpace(s[1..])
  }

  function Concat(parts: seq<string>): string {
    if |parts| == 0 then "" else parts[0] + Concat(parts[1..])
  }

  /** Length of the run of non-space characters that starts `s`. */
  function WordLen(s: string): (n: nat)
    ensures n <= |s|
    ensures NoSpace(s[..n])
    ensures n < |s| ==> IsSpace(s[n])
  {
    if |s| == 0 || IsSpace(s[0]) then 0
    else
      var m := WordLen(s[1..]);
      assert s[..1 + m] == [s[0]] + s[1..][..m];
      1 + m
  }

  /** `strings.Fields`: the maximal runs of non-space characters, in order. */
  function Fields(s: string): (r: seq<string>)
    ensures forall k | 0 <= k < |r| :: |r[k]| > 0 && NoSpace(r[k])
    ensures Concat(r) == NonSpace(s)
    decreases |s|
  {
    if |s| == 0 then []
    else if IsSpace(s[0]) then Fields(s[1..])
    else
      var n := WordLen(s);
      NonSpaceSplit(s, n);
      [s[..n]] + Fields(s[n..])
  }

  lemma {:induction false} NonSpaceOfWord(w: string)
    requires NoSpace(w)
    ensures NonSpace(w) == w
  {
    if |w| > 0 {
      NonSpaceOfWord(w[1..]);
    }
  }

  lemma {:induction false} NonSpaceSplit(s: string, n: nat)
    requires n <= |s| && NoSpace(s[..n])
    ensures NonSpace(s) == s[..n] + NonSpace(s[n..])
  {
    if n > 0 {
      var w := s[..n];
      assert w[0] == s[0];
      assert s[1..][..n - 1] == w[1..];
      assert NoSpace(w[1..]) by {
        forall i | 0 <= i < n - 1
          ensures !IsSpace(w[1..][i])
        {
          assert w[1..][i] == w[i + 1];
        }
      }
      NonSpaceSplit(s[1..], n - 1);
      assert s[1..][n - 1..] == s[n..];
      assert w == [s[0]] + w[1..];
    }
  }

  /** goquery's `HasClass`: the class attribute, with tab, carriage return and
      line feed read as blanks, holds `token` as a blank-delimited word. */
  predicate HasClass(classAttr: string, token: string) {
    Contains(" " + BlankControls(classAttr) + " ", " " + token + " ")
  }

  /** Replaces every tab, carriage return and line feed by a blank. */
  function BlankControls(s: string): (r: string)
    ensures |r| == |s|
    ensures forall i | 0 <= i < |s| :: r[i] == (if s[i] in "\t\r\n" then ' ' else s[i])
  {
    if |s| == 0 then "" else [if s[0] in "\t\r\n" then ' ' else s[0]] + BlankControls(s[1..])
  }

  // Splitting strings that were built by gluing pieces together.

  lemma NoOccurrenceAtOtherChar(s: string, sep: string, j: int)
    requires |sep| > 0 && 0 <= j < |s| && s[j] != sep[0]
    ensures !OccursAt(s, sep, j)
  {
  }

  lemma IndexAfterPiece(p: string, sep: string, rest: string)
    requires |sep| > 0 && sep[0] !in p
    ensures Index(p + sep + rest, sep) == Some(|p|)
  {
    var s := p + sep + rest;
    assert OccursAt(s, sep, |p|) by { assert s[|p|..|p| + |sep|] == sep; }
    forall j | 0 <= j < |p|
      ensures !OccursAt(s, sep, j)
    {
      assert s[j] == p[j];
      NoOccurrenceAtOtherChar(s, sep, j);
    }
  }

  lemma IndexOfPiece(p: string, sep: string)
    requires |sep| > 0 && sep[0] !in p
    ensures Index(p, sep) == None
  {
    forall j | 0 <= j < |p|
      ensures !OccursAt(p, sep, j)
    {
      NoOccurrenceAtOtherChar(p, sep, j);
    }
  }

  lemma SplitAfterPiece(p: string, sep: string, rest: string)
    requires |sep| > 0 && sep[0] !in p
    ensures Split(p + sep + rest, sep) == [p] + Split(rest, sep)
  {
    var s := p + sep + rest;
    IndexAfterPiece(p, sep, rest);
    assert s[..|p|] == p;
    assert s[|p| + |sep|..] == rest;
  }

  lemma SplitOfPiece(p: string, sep: string)
    requires |sep| > 0 && sep[0] !in p
    ensures Split(p, sep) == [p]
  {
    IndexOfPiece(p, sep);
  }

  lemma SplitNAfterPiece(p: string, sep: string, rest: string, n: nat)
    requires |sep| > 0 && sep[0] !in p && n > 1
    ensures SplitN(p + sep + rest, sep, n) == [p] + SplitN(rest, sep, n - 1)
  {
    var s := p + sep + rest;
    IndexAfterPiece(p, sep, rest);
    assert s[..|p|] == p;
    assert s[|p| + |sep|..] == rest;
  }

  lemma SplitNOfPiece(p: string, sep: string, n: nat)
    requires |sep| > 0 && sep[0] !in p && n > 0
    ensures SplitN(p, sep, n) == [p]
  {
    IndexOfPiece(p, sep);
  }

  /** A word followed by white space is the first field. */
  lemma FieldsAfterWord(w: string, rest: string)
    requires |w| > 0 && NoSpace(w)
    requires |rest| == 0 || IsSpace(rest[0])
    ensures Fields(w + rest) == [w] + Fields(rest)
  {
    var s := w + rest;
    WordLenOfWord(w, rest);
    assert s[..|w|] == w;
    assert s[|w|..] == rest;
  }

  lemma {:induction false} WordLenOfWord(w: string, rest: string)
    requires NoSpace(w)
    requires |rest| == 0 || IsSpace(rest[0])
    ensures WordLen(w + rest) == |w|
  {
    if |w| > 0 {
      assert (w + rest)[1..] == w[1..] + rest;
      WordLenOfWord(w[1..], rest);
    } else {
      assert w + rest == rest;
    }
  }

  /** Words joined by single blanks split back into the same words. */
  lemma {:induction false} FieldsOfJoin(words: seq<string>)
    requires forall k | 0 <= k < |words| :: |words[k]| > 0 && NoSpace(words[k])
    ensures Fields(Join(words, " ")) == words
  {
    if |words| == 1 {
      FieldsAfterWord(words[0], "");
      assert words[0] + "" == words[0];
    } else if |words| > 1 {
      var rest := Join(words[1..], " ");
      assert Join(words, " ") == words[0] + (" " + rest);
      FieldsOfJoin(words[1..]);
      FieldsAfterWord(words[0], " " + rest);
      FieldsAfterBlank(rest);
    }
  }

  /** A leading blank does not change the fields. */
  lemma FieldsAfterBlank(s: string)
    ensures Fields(" " + s) == Fields(s)
  {
    assert (" " + s)[1..] == s;
  }

  /** Only the characters of the parts and of the separator occur in a join. */
  lemma {:induction false} JoinAvoids(parts: seq<string>, sep: string, c: char)
    requires c !in sep && forall k | 0 <= k < |parts| :: c !in parts[k]
    ensures c !in Join(parts, sep)
  {
    if |parts| > 1 {
      JoinAvoids(parts[1..], sep, c);
    }
  }

  /** The pieces of a split blank-free string are blank-free. */
  lemma {:induction false} JoinedPartsHaveNoSpace(parts: seq<string>, sep: string, k: nat)
    requires k < |parts| && NoSpace(Join(parts, sep))
    ensures NoSpace(parts[k])
  {
    if |parts| > 1 {
      var rest := Join(parts[1..], sep);
      assert Join(parts, sep) == parts[0] + sep + rest;
      if k == 0 {
        assert forall i | 0 <= i < |parts[0]| :: parts[0][i] == Join(parts, sep)[i];
      } else {
        assert forall i | 0 <= i < |rest| :: rest[i] == Join(parts, sep)[|parts[0]| + |sep| + i];
        JoinedPartsHaveNoSpace(parts[1..], sep, k - 1);
      }
    }
  }

  lemma TrimSuffixOfSuffixed(s: string, suffix: string)
    ensures TrimSuffix(s + suffix, suffix) == s
  {
    assert (s + suffix)[|s|..] == suffix;
    assert (s + suffix)[..|s|] == s;
  }

  /** Trimming a blank-free string changes nothing. */
  lemma TrimSpaceOfWord(w: string)
    requires NoSpace(w)
    ensures TrimSpace(w) == w
  {
    assert TrimLeft(w) == w;
    assert TrimRight(w) == w;
  }

  lemma TrimSpaceAfterBlank(s: string)
    ensures TrimSpace(" " + s) == TrimSpace(s)
  {
    assert (" " + s)[1..] == s;
    assert TrimLeft(" " + s) == TrimLeft(s);
  }

  // Separators of the form blank-word-blank (" at ", " vs ").

  /** No blank of `s` is directly followed by `c`. */
  predicate BlankNotBefore(s: string, c: char) {
    forall j | 0 <= j < |s| - 1 :: s[j] == ' ' ==> s[j + 1] != c
  }

  lemma BlankNotBeforeConcat(a: string, b: string, c: char)
    requires BlankNotBefore(a, c) && BlankNotBefore(b, c)
    requires |a| > 0 && |b| > 0 && a[|a| - 1] == ' ' ==> b[0] != c
    ensures BlankNotBefore(a + b, c)
  {
    var s := a + b;
    forall j | 0 <= j < |s| - 1 && s[j] == ' '
      ensures s[j + 1] != c
    {
      if j + 1 < |a| {
        assert s[j] == a[j] && s[j + 1] == a[j + 1];
      } else if j + 1 == |a| {
        assert s[j] == a[|a| - 1] && s[j + 1] == b[0];
      } else {
        assert s[j] == b[j - |a|] && s[j + 1] == b[j + 1 - |a|];
      }
    }
  }

  /** A blank-led separator is never found in a string where no blank is
      followed by the separator's second character. */
  lemma IndexOfBlankLed(s: string, sep: string)
    requires |sep| >= 2 && sep[0] == ' ' && BlankNotBefore(s, sep[1])
    ensures Index(s, sep) == None
  {
    forall j | 0 <= j < |s|
      ensures !OccursAt(s, sep, j)
    {
      if s[j] != ' ' {
        NoOccurrenceAtOtherChar(s, sep, j);
      } else {
        NoOccurrenceAtOtherSecond(s, sep, j);
      }
    }
  }

  lemma NoOccurrenceAtOtherSecond(s: string, sep: string, j: int)
    requires |sep| >= 2 && 0 <= j < |s|
    requires j + 1 < |s| ==> s[j + 1] != sep[1]
    ensures !OccursAt(s, sep, j)
  {
    if j + |sep| <= |s| {
      assert s[j..j + |sep|][1] == s[j + 1];
    }
  }

  /** ... and it is first found right after such a prefix. */
  lemma SplitNAfterBlankLed(p: string, sep: string, rest: string)
    requires |sep| >= 2 && sep[0] == ' ' && sep[1] != ' ' && BlankNotBefore(p, sep[1])
    ensures SplitN(p + sep + rest, sep, 2) == [p, rest]
  {
    var s := p + sep + rest;
    assert OccursAt(s, sep, |p|) by { assert s[|p|..|p| + |sep|] == sep; }
    forall j | 0 <= j < |p|
      ensures !OccursAt(s, sep, j)
    {
      if s[j] != ' ' {
        NoOccurrenceAtOtherChar(s, sep, j);
      } else {
        if j + 1 < |p| {
          assert s[j] == p[j] && s[j + 1] == p[j + 1];
        } else {
          assert s[j + 1] == sep[0];
        }
        NoOccurrenceAtOtherSecond(s, sep, j);
      }
    }
    assert Index(s, sep) == Some(|p|);
    assert s[..|p|] == p;
    assert s[|p| + |sep|..] == rest;
  }

  lemma SplitOfFour(a: string, b: string, c: string, d: string, sep: string)
    requires |sep| > 0 && sep[0] !in a && sep[0] !in b && sep[0] !in c && sep[0] !in d
    ensures Split(a + sep + (b + sep + (c + sep + d)), sep) == [a, b, c, d]
  {
    SplitAfterPiece(a, sep, b + sep + (c + sep + d));
    SplitAfterPiece(b, sep, c + sep + d);
    SplitAfterPiece(c, sep, d);
    SplitOfPiece(d, sep);
  }

  /** Parts free of the separator's first character come back from a split
      of their join. */
  lemma {:induction false} SplitOfJoin(parts: seq<string>, sep: string)
    requires |sep| > 0 && |parts| > 0
    requires forall k | 0 <= k < |parts| :: sep[0] !in parts[k]
    ensures Split(Join(parts, sep), sep) == parts
  {
    if |parts| == 1 {
      SplitOfPiece(parts[0], sep);
    } else {
      SplitOfJoin(parts[1..], sep);
      SplitAfterPiece(parts[0], sep, Join(parts[1..], sep));
    }
  }

  /** Equal strings with the same prefix and suffix have equal middles. */
  lemma DropAffixes(prefix: string, x: string, y: string, suffix: string)
    requires prefix + x + suffix == prefix + y + suffix
    ensures x == y
  {
    var s := prefix + x + suffix;
    assert x == s[|prefix|..|s| - |suffix|];
    assert y == (prefix + y + suffix)[|prefix|..|s| - |suffix|];
  }
}
