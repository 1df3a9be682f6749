/** The Python string operations the services rely on, over `seq<char>`:
    `str.strip()`, `str.split()` with no separator, `str.split(sep, n)`,
    `sub in s`, `str.replace(old, "")`, slicing `s[:n]` and `str.title()`. */
module Text {

  import opened Common

  /** Python's `str.isspace()`: the characters `strip()` and `split()` treat as
      whitespace. */
  predicate IsSpace(c: char)
  {
    || c == ' ' || c == '\t' || c == '\n' || c == '\r'
    || c == '\U{000B}' || c == '\U{000C}'
    || ('\U{001C}' <= c <= '\U{001F}')
    || c == '\U{0085}' || c == '\U{00A0}' || c == '\U{1680}'
    || ('\U{2000}' <= c <= '\U{200A}')
    || c == '\U{2028}' || c == '\U{2029}' || c == '\U{202F}' || c == '\U{205F}' || c == '\U{3000}'
  }

  predicate AllSpace(s: string) { forall i :: 0 <= i < |s| ==> IsSpace(s[i]) }

  predicate NoSpace(s: string) { forall i :: 0 <= i < |s| ==> !IsSpace(s[i]) }

  // ---------------------------------------------------------------------------
  // strip

  /** Length of the longest all-whitespace prefix. */
  function LeadingSpace(s: string): (k: nat)
    ensures k <= |s| && AllSpace(s[..k])
    ensures forall i :: 0 <= i < k ==> IsSpace(s[i])
    ensures k < |s| ==> !IsSpace(s[k])
    decreases |s|
  {
    if s == [] || !IsSpace(s[0]) then 0
    else
      var k := 1 + LeadingSpace(s[1..]);
      assert forall i :: 1 <= i < k ==> s[..k][i] == s[1..][..k - 1][i - 1];
      k
  }

  /** Length of the longest all-whitespace suffix. */
  function TrailingSpace(s: string): (k: nat)
    ensures k <= |s| && AllSpace(s[|s| - k..])
    ensures k < |s| ==> !IsSpace(s[|s| - k - 1])
    decreases |s|
  {
    if s == [] || !IsSpace(s[|s| - 1]) then 0
    else
      var t := s[..|s| - 1];
      var k := 1 + TrailingSpace(t);
      assert forall i :: |s| - k <= i < |s| - 1 ==> s[i] == t[i];
      k
  }

  /** `s.strip()`: `s` without its leading and trailing whitespace. The result is
      a contiguous slice of `s`, only whitespace lies outside it, and it neither
      starts nor ends with whitespace. */
  function Strip(s: string): (r: string)
    ensures |r| <= |s|
    ensures r == [] || (!IsSpace(r[0]) && !IsSpace(r[|r| - 1]))
    ensures var i := LeadingSpace(s);
            && i + |r| <= |s| && s[i..i + |r|] == r
            && AllSpace(s[..i]) && AllSpace(s[i + |r|..])
  {
    var a := LeadingSpace(s);
    if a == |s| then
      assert s[a..] == [];
      []
    else
      var b := TrailingSpace(s);
      StripBounds(s, a, b);
      s[a..|s| - b]
  }

  /** When `s` is not all whitespace, its leading and trailing runs do not
      meet, and what lies between them starts and ends with non-whitespace. */
  lemma StripBounds(s: string, a: nat, b: nat)
    requires a == LeadingSpace(s) && a < |s| && b == TrailingSpace(s)
    ensures a < |s| - b
    ensures !IsSpace(s[a]) && !IsSpace(s[|s| - b - 1])
    ensures AllSpace(s[..a]) && AllSpace(s[|s| - b..])
    ensures var r := s[a..|s| - b]; s[a..a + |r|] == r && s[a + |r|..] == s[|s| - b..]
  {
  }

  lemma StripOfStripped(r: string)
    requires r == [] || (!IsSpace(r[0]) && !IsSpace(r[|r| - 1]))
    ensures Strip(r) == r
  {
    if r != [] {
      assert LeadingSpace(r) == 0;
      assert TrailingSpace(r) == 0;
    }
  }

  /** Stripping twice is stripping once. */
  lemma StripIdempotent(s: string)
    ensures Strip(Strip(s)) == Strip(s)
  {
    StripOfStripped(Strip(s));
  }

  // ---------------------------------------------------------------------------
  // split() with no separator: maximal runs of non-whitespace

  /** Length of the longest whitespace-free prefix. */
  function WordLength(s: string): (k: nat)
    ensures k <= |s| && NoSpace(s[..k])
    ensures forall i :: 0 <= i < k ==> !IsSpace(s[i])
    ensures k < |s| ==> IsSpace(s[k])
    decreases |s|
  {
    if s == [] || IsSpace(s[0]) then 0
    else
      var k := 1 + WordLength(s[1..]);
      assert forall i :: 1 <= i < k ==> s[..k][i] == s[1..][..k - 1][i - 1];
      k
  }

  /** `s.split()`: the maximal runs of non-whitespace characters, in order. */
  function Words(s: string): (ws: seq<string>)
    ensures forall i :: 0 <= i < |ws| ==> |ws[i]| > 0 && NoSpace(ws[i])
    decreases |s|
  {
    var a := LeadingSpace(s);
    if a == |s| then []
    else
      var t := s[a..];
      var w := WordLength(t);
      [t[..w]] + Words(t[w..])
  }

  lemma LeadingSpaceOfTail(t: string)
    requires |t| > 0 && IsSpace(t[0])
    ensures LeadingSpace(t) == LeadingSpace(t[1..]) + 1
  {
    var a, a' := LeadingSpace(t), LeadingSpace(t[1..]);
  }

  lemma WordLengthOfTail(t: string)
    requires |t| > 0 && !IsSpace(t[0])
    ensures WordLength(t) == WordLength(t[1..]) + 1
  {
    var k, k' := WordLength(t), WordLength(t[1..]);
  }

  /** A leading whitespace character does not change the words. */
  lemma WordsDropSpace(t: string)
    requires |t| > 0 && IsSpace(t[0])
    ensures Words(t[1..]) == Words(t)
  {
    LeadingSpaceOfTail(t);
    var a := LeadingSpace(t);
    if a < |t| {
      assert t[a..] == t[1..][a - 1..];
    }
  }

  /** Dropping the first character of a word loses a word only when that
      word had length one. */
  lemma WordsDropLetter(t: string)
    requires |t| > 0 && !IsSpace(t[0])
    ensures |Words(t[1..])| + 1 == |Words(t)| + (if |t| > 1 && !IsSpace(t[1]) then 1 else 0)
  {
    assert LeadingSpace(t) == 0;
    assert t[0..] == t;
    var w := WordLength(t);
    WordLengthOfTail(t);
    if w == 1 {
      assert t[w..] == t[1..];
    } else {
      var u := t[1..];
      assert LeadingSpace(u) == 0;
      assert u[0..] == u;
      assert u[w - 1..] == t[w..];
    }
  }

  /** `len(s.split())`, computed in one pass with a flag that says whether the
      previous character belonged to a word. */
  method CountWords(s: string) returns (n: nat)
    ensures n == |Words(s)|
  {
    n := 0;
    var i := 0;
    var inWord := false;
    while i < |s|
      invariant 0 <= i <= |s|
      invariant inWord ==> 0 < i && !IsSpace(s[i - 1])
      invariant n + |Words(s[i..])|
                == |Words(s)| + (if inWord && i < |s| && !IsSpace(s[i]) then 1 else 0)
    {
      var t := s[i..];
      assert t[1..] == s[i + 1..];
      if IsSpace(s[i]) {
        WordsDropSpace(t);
        inWord := false;
      } else {
        WordsDropLetter(t);
        if !inWord {
          n := n + 1;
        }
        inWord := true;
      }
      i := i + 1;
    }
  }

  /** `sep.join(parts)`. */
  function Join(parts: seq<string>, sep: string): (r: string)
    ensures |parts| == 1 ==> r == parts[0]
    decreases |parts|
  {
    if parts == [] then ""
    else if |parts| == 1 then parts[0]
    else parts[0] + sep + Join(parts[1..], sep)
  }

  lemma WordsOfWordThenRest(w: string, rest: string)
    requires |w| > 0 && NoSpace(w)
    requires rest == [] || IsSpace(rest[0])
    ensures Words(w + rest) == [w] + Words(rest)
  {
    var s := w + rest;
    assert LeadingSpace(s) == 0;
    assert s[0..] == s;
    var k := WordLength(s);
    assert forall j :: 0 <= j < |w| ==> s[j] == w[j];
    assert |rest| > 0 ==> s[|w|] == rest[0] && IsSpace(s[|w|]);
    assert k == |w|;
    assert s[..k] == w && s[k..] == rest;
  }

  lemma WordsOfWordSpaceRest(w: string, rest: string)
    requires |w| > 0 && NoSpace(w)
    ensures Words(w + " " + rest) == [w] + Words(rest)
  {
    var spaced := " " + rest;
    assert w + " " + rest == w + spaced;
    assert IsSpace(spaced[0]) && spaced[1..] == rest;
    WordsOfWordThenRest(w, spaced);
    WordsDropSpace(spaced);
  }

  /** Splitting words joined by single spaces gives the words back. */
  lemma {:induction false} WordsOfJoin(ws: seq<string>)
    requires forall i :: 0 <= i < |ws| ==> |ws[i]| > 0 && NoSpace(ws[i])
    ensures Words(Join(ws, " ")) == ws
    decreases |ws|
  {
    if ws == [] {
      assert LeadingSpace("") == 0;
    } else if |ws| == 1 {
      WordsOfWordThenRest(ws[0], "");
      assert ws[0] + "" == ws[0];
      assert Words("") == [];
    } else {
      var tail := ws[1..];
      WordsOfJoin(tail);
      assert ws == [ws[0]] + tail;
      WordsOfJoinStep(ws[0], tail);
    }
  }

  /** The induction step of `WordsOfJoin`: one more word in front. */
  lemma WordsOfJoinStep(w: string, tail: seq<string>)
    requires |w| > 0 && NoSpace(w) && |tail| > 0
    requires Words(Join(tail, " ")) == tail
    ensures Words(Join([w] + tail, " ")) == [w] + tail
  {
    var ws := [w] + tail;
    assert ws[0] == w && ws[1..] == tail;
    assert Join(ws, " ") == w + " " + Join(tail, " ");
    WordsOfWordSpaceRest(w, Join(tail, " "));
  }

  // ---------------------------------------------------------------------------
  // substring search and removal

  predicate StartsWith(s: string, p: string) { |p| <= |s| && s[..|p|] == p }

  /** `p in s`. */
  predicate Contains(s: string, p: string)
    decreases |s|
  {
    StartsWith(s, p) || (|s| > 0 && Contains(s[1..], p))
  }

  predicate OccursAt(s: string, p: string, i: int)
  {
    0 <= i && i + |p| <= |s| && s[i..i + |p|] == p
  }

  /** `p in s` holds exactly when `p` occurs at some position of `s`. */
  lemma {:induction false} ContainsIffOccurs(s: string, p: string)
    ensures Contains(s, p) <==> exists i :: OccursAt(s, p, i)
    decreases |s|
  {
    if StartsWith(s, p) {
      assert OccursAt(s, p, 0);
    } else if |s| > 0 {
      ContainsIffOccurs(s[1..], p);
      if Contains(s[1..], p) {
        var i :| OccursAt(s[1..], p, i);
        assert s[i + 1..i + 1 + |p|] == s[1..][i..i + |p|];
        assert OccursAt(s, p, i + 1);
      }
      if i :| OccursAt(s, p, i) {
        assert i != 0;
        assert s[1..][i - 1..i - 1 + |p|] == s[i..i + |p|];
        assert OccursAt(s[1..], p, i - 1);
      }
    } else {
    }
  }

  /** `s.replace(p, "")`: every occurrence of `p`, scanning left to right
      without overlap, deleted. */
  function RemoveAll(s: string, p: string): (r: string)
    requires |p| > 0
    ensures |r| <= |s|
    ensures !Contains(s, p) ==> r == s
    ensures Contains(s, p) ==> |r| + |p| <= |s|
    decreases |s|
  {
    if |s| == 0 then s
    else if StartsWith(s, p) then RemoveAll(s[|p|..], p)
    else
      assert Contains(s, p) ==> Contains(s[1..], p);
      [s[0]] + RemoveAll(s[1..], p)
  }

  /** Removing `p` from `p + x` leaves `x` when `x` does not contain `p`. */
  lemma RemoveLeadingMarker(p: string, x: string)
    requires |p| > 0 && !Contains(x, p)
    ensures RemoveAll(p + x, p) == x
  {
    var s := p + x;
    assert StartsWith(s, p);
    assert s[|p|..] == x;
  }

  // ---------------------------------------------------------------------------
  // split(sep, maxsplit) for a one-character separator

  /** First position of `c` in `s`, if any. */
  function IndexOf(s: string, c: char): (r: Option<nat>)
    ensures r.None? ==> c !in s
    ensures r.Some? ==> r.value < |s| && s[r.value] == c && c !in s[..r.value]
    decreases |s|
  {
    if s == [] then None
    else if s[0] == c then Some(0)
    else
      match IndexOf(s[1..], c)
      case None => None
      case Some(i) =>
        assert s[..i + 1] == [s[0]] + s[1..][..i];
        Some(i + 1)
  }

  /** `s.split(c, maxsplit)`: at most `maxsplit` cuts, at the first
      occurrences of `c`. Joining the parts with `c` gives `s` back; every part
      but the last is free of `c`, and so is the last when fewer than
      `maxsplit + 1` parts came out. */
  function SplitN(s: string, c: char, maxsplit: nat): (parts: seq<string>)
    ensures 1 <= |parts| <= maxsplit + 1
    ensures Join(parts, [c]) == s
    ensures forall i :: 0 <= i < |parts| - 1 ==> c !in parts[i]
    ensures |parts| <= maxsplit ==> c !in parts[|parts| - 1]
    decreases maxsplit
  {
    if maxsplit == 0 then [s]
    else
      match IndexOf(s, c)
      case None => [s]
      case Some(i) =>
        var rest := SplitN(s[i + 1..], c, maxsplit - 1);
        var parts := [s[..i]] + rest;
        assert parts[1..] == rest;
        assert s == s[..i] + [c] + s[i + 1..];
        parts
  }

  // ---------------------------------------------------------------------------
  // slicing and title case

  /** `s[:n]` for a non-negative `n`. */
  function Take(s: string, n: nat): (r: string)
    ensures |r| == (if |s| < n then |s| else n)
    ensures r == s[..|r|]
  {
    if |s| <= n then s else s[..n]
  }

  predicate IsUpper(c: char) { 'A' <= c <= 'Z' }
  predicate IsLower(c: char) { 'a' <= c <= 'z' }
  predicate IsCased(c: char) { IsUpper(c) || IsLower(c) }

  /** The letter's upper-case form: the same position in the alphabet. */
  function ToUpper(c: char): (u: char)
    ensures IsLower(c) ==> IsUpper(u) && u as int - 'A' as int == c as int - 'a' as int
    ensures !IsLower(c) ==> u == c
  {
    if IsLower(c) then (c as int - 32) as char else c
  }

  /** The letter's lower-case form: the same position in the alphabet. */
  function ToLower(c: char): (l: char)
    ensures IsUpper(c) ==> IsLower(l) && l as int - 'a' as int == c as int - 'A' as int
    ensures !IsUpper(c) ==> l == c
  {
    if IsUpper(c) then (c as int + 32) as char else c
  }

  /** Upper- and lower-casing undo each other on letters. */
  lemma CaseRoundTrip(c: char)
    ensures IsLower(c) ==> ToLower(ToUpper(c)) == c
    ensures IsUpper(c) ==> ToUpper(ToLower(c)) == c
  {
  }

  /** Title-cases `s` given whether the character before it was a letter. */
  function TitleFrom(s: string, afterLetter: bool): (r: string)
    ensures |r| == |s|
    ensures forall i :: 0 <= i < |s| ==> IsCased(r[i]) == IsCased(s[i])
    ensures forall i :: 0 <= i < |s| && !IsCased(s[i]) ==> r[i] == s[i]
    ensures forall i :: 0 <= i < |s| ==> r[i] == ToUpper(s[i]) || r[i] == ToLower(s[i])
    ensures forall i :: 0 <= i < |s| && IsCased(s[i]) ==>
              (IsUpper(r[i]) <==> (if i == 0 then !afterLetter else !IsCased(s[i - 1])))
    decreases |s|
  {
    if s == [] then []
    else
      var c := s[0];
      var head := if !IsCased(c) then c else if afterLetter then ToLower(c) else ToUpper(c);
      assert IsCased(head) == IsCased(c) && (head == ToUpper(c) || head == ToLower(c));
      var tail := TitleFrom(s[1..], IsCased(c));
      var r := [head] + tail;
      assert forall i :: 1 <= i < |s| ==> s[1..][i - 1] == s[i] && r[i] == tail[i - 1];
      r
  }

  /** `s.title()` for ASCII letters: the first letter of every run of letters
      upper case, every other letter lower case, everything else unchanged. */
  function TitleCase(s: string): (r: string)
    ensures |r| == |s|
    ensures forall i :: 0 <= i < |s| && !IsCased(s[i]) ==> r[i] == s[i]
    ensures forall i :: 0 <= i < |s| && IsCased(s[i]) ==>
              (IsUpper(r[i]) <==> (i == 0 || !IsCased(s[i - 1])))
    ensures forall i :: 0 <= i < |s| ==> IsCased(r[i]) == IsCased(s[i])
    ensures forall i :: 0 <= i < |s| ==> r[i] == ToUpper(s[i]) || r[i] == ToLower(s[i])
  {
    TitleFrom(s, false)
  }

  /** Title-casing a title-cased string changes nothing. */
  lemma TitleCaseIdempotent(s: string)
    ensures TitleCase(TitleCase(s)) == TitleCase(s)
  {
    var t := TitleCase(s);
    var u := TitleCase(t);
    forall i | 0 <= i < |s|
      ensures u[i] == t[i]
    {
      if i > 0 {
        assert IsCased(t[i - 1]) == IsCased(s[i - 1]);
      }
      if IsCased(t[i]) {
        assert IsUpper(u[i]) == IsUpper(t[i]);
        assert IsUpper(t[i]) != IsLower(t[i]);
        assert IsUpper(u[i]) != IsLower(u[i]);
        // Both are letters with the same case; a title-cased letter is the
        // upper or lower form of the same source letter.
        CaseAgrees(s[i], t[i], u[i]);
      }
    }
  }

  /** Two title-casings of the same letter agree when they have the same case. */
  lemma CaseAgrees(c: char, t: char, u: char)
    requires IsCased(c)
    requires t == ToUpper(c) || t == ToLower(c)
    requires u == ToUpper(t) || u == ToLower(t)
    requires IsUpper(u) == IsUpper(t)
    ensures u == t
  {
  }
}
