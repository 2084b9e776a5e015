/** The three Python string operations the scorer and the moderator rely on:
    `str.strip()`, `str.lower()` and `str.split()` with no argument, plus the
    substring test `b in t`. */
module Text {

  /** `c.isspace()`: the characters Python treats as whitespace in `strip()`
      and `split()`. */
  predicate IsSpace(c: char) {
    || ('\t' <= c <= '\r')                 // tab, line feed, vertical tab, form feed, carriage return
    || ('\U{1C}' <= c <= '\U{1F}')         // file, group, record and unit separators
    || c == ' '
    || c == '\U{85}'                       // next line
    || c == '\U{A0}'                       // no-break space
    || c == '\U{1680}'
    || ('\U{2000}' <= c <= '\U{200A}')
    || c == '\U{2028}' || c == '\U{2029}'
    || c == '\U{202F}' || c == '\U{205F}' || c == '\U{3000}'
  }

  predicate AllSpace(s: string) {
    forall i :: 0 <= i < |s| ==> IsSpace(s[i])
  }

  /** `str.lower()` on one character. Covers ASCII, the Latin-1 capitals and
      the Turkish capitals outside Latin-1; capital dotted I lowers to two
      characters, as in Python. Any other character is left unchanged. */
  function LowerChar(c: char): (r: string)
    ensures 1 <= |r| <= 2
    ensures IsSpace(c) <==> IsSpace(r[0])
    ensures 'a' <= c <= 'z' ==> r == [c]
  {
    if 'A' <= c <= 'Z' then [(c as int + 32) as char]
    else if '\U{C0}' <= c <= '\U{DE}' && c != '\U{D7}' then [(c as int + 32) as char]
    else if c == '\U{11E}' then ['\U{11F}']              // Ğ -> ğ
    else if c == '\U{15E}' then ['\U{15F}']              // Ş -> ş
    else if c == '\U{130}' then ['i', '\U{307}']          // İ -> i + combining dot above
    else [c]
  }

  /** `str.lower()`: each character lowered in place, so the text grows by at
      most one character per capital dotted I and keeps its first character
      a space or a non-space as it was. */
  function Lower(s: string): (r: string)
    ensures |s| <= |r| <= 2 * |s|
    ensures s != [] ==> (IsSpace(r[0]) <==> IsSpace(s[0]))
  {
    if s == [] then [] else LowerChar(s[0]) + Lower(s[1..])
  }

  /** Capital ASCII letters lower position by position, 32 code points down
      the table. */
  lemma {:induction false} LowerOfAsciiUpper(s: string)
    requires forall i :: 0 <= i < |s| ==> 'A' <= s[i] <= 'Z'
    ensures |Lower(s)| == |s|
    ensures forall i :: 0 <= i < |s| ==> Lower(s)[i] == (s[i] as int + 32) as char
  {
    if s != [] {
      LowerOfAsciiUpper(s[1..]);
      assert forall i :: 1 <= i < |s| ==> s[1..][i - 1] == s[i];
    }
  }

  /** A text of lowercase ASCII letters is its own lowercase. */
  lemma {:induction false} LowerOfAsciiLower(s: string)
    requires forall i :: 0 <= i < |s| ==> 'a' <= s[i] <= 'z'
    ensures Lower(s) == s
  {
    if s != [] {
      LowerOfAsciiLower(s[1..]);
      assert [s[0]] + s[1..] == s;
    }
  }

  /** The first index at or after `i` that does not hold whitespace, or `|s|`. */
  function SkipSpaces(s: string, i: nat): (k: nat)
    requires i <= |s|
    ensures i <= k <= |s|
    ensures forall m :: i <= m < k ==> IsSpace(s[m])
    ensures k < |s| ==> !IsSpace(s[k])
    decreases |s| - i
  {
    if i < |s| && IsSpace(s[i]) then SkipSpaces(s, i + 1) else i
  }

  /** The end of `s[..j]` once its trailing whitespace is dropped. */
  function TrimEnd(s: string, j: nat): (k: nat)
    requires j <= |s|
    ensures k <= j
    ensures forall m :: k <= m < j ==> IsSpace(s[m])
    ensures 0 < k ==> !IsSpace(s[k - 1])
  {
    if 0 < j && IsSpace(s[j - 1]) then TrimEnd(s, j - 1) else j
  }

  /** `str.strip()`: the text from the first to the last character that is
      not whitespace. */
  function Strip(s: string): (r: string)
    ensures r == [] || (!IsSpace(r[0]) && !IsSpace(r[|r| - 1]))
  {
    var i := SkipSpaces(s, 0);
    var j := TrimEnd(s, |s|);
    if i == |s| then []
    else
      assert !IsSpace(s[i]);
      s[i..j]
  }

  /** `strip()` removes a whitespace prefix and a whitespace suffix and
      nothing else; as the result starts and ends with a non-space, these
      are the whole leading and trailing whitespace. */
  lemma StripDropsOuterSpace(s: string)
    ensures exists p, q :: s == p + Strip(s) + q && AllSpace(p) && AllSpace(q)
  {
    var i := SkipSpaces(s, 0);
    var j := TrimEnd(s, |s|);
    if i == |s| {
      SliceAround(s, i, i);
      assert s == s + Strip(s) + s[i..];
    } else {
      assert !IsSpace(s[i]);
      SliceAround(s, i, j);
      assert Strip(s) == s[i..j];
    }
  }

  /** Cutting `s` at `i` and `j` around a middle part, where `s` has only
      whitespace before `i` and from `j` on. */
  lemma SliceAround(s: string, i: nat, j: nat)
    requires i <= j <= |s|
    requires forall m :: 0 <= m < i ==> IsSpace(s[m])
    requires forall m :: j <= m < |s| ==> IsSpace(s[m])
    ensures s == s[..i] + s[i..j] + s[j..]
    ensures AllSpace(s[..i]) && AllSpace(s[j..])
  {
    assert forall m :: 0 <= m < |s[j..]| ==> s[j..][m] == s[j + m];
  }

  /** Stripping leaves nothing exactly when every character is whitespace. */
  lemma StripEmptyIffAllSpace(s: string)
    ensures Strip(s) == [] <==> AllSpace(s)
  {
    var i := SkipSpaces(s, 0);
    if i < |s| {
      assert !IsSpace(s[i]);
      assert Strip(s) == s[i..TrimEnd(s, |s|)];
    }
  }

  /** Length of the run of non-space characters at the front of `s`. */
  function WordLength(s: string): (k: nat)
    ensures k <= |s|
    ensures forall i :: 0 <= i < k ==> !IsSpace(s[i])
    ensures k < |s| ==> IsSpace(s[k])
  {
    if s == [] || IsSpace(s[0]) then 0 else 1 + WordLength(s[1..])
  }

  /** A text without whitespace. */
  predicate NoSpace(w: string) {
    forall m :: 0 <= m < |w| ==> !IsSpace(w[m])
  }

  /** `str.split()` with no argument: the maximal runs of non-space
      characters, in order. */
  function Words(s: string): (ws: seq<string>)
    ensures forall j :: 0 <= j < |ws| ==> ws[j] != [] && NoSpace(ws[j])
    ensures |ws| <= |s|
    decreases |s|
  {
    if s == [] then []
    else if IsSpace(s[0]) then Words(s[1..])
    else
      var k := WordLength(s);
      assert NoSpace(s[..k]) by {
        assert forall m :: 0 <= m < k ==> s[..k][m] == s[m];
      }
      [s[..k]] + Words(s[k..])
  }

  /** The text `gaps[0] + ws[0] + gaps[1] + ... + ws[n-1] + gaps[n]`. */
  function Interleave(gaps: seq<string>, ws: seq<string>): string
    requires |gaps| == |ws| + 1
    decreases |ws|
  {
    if ws == [] then gaps[0] else gaps[0] + ws[0] + Interleave(gaps[1..], ws[1..])
  }

  /** `ws` are the maximal non-space runs of `s`: `s` is the tokens, each
      non-empty and free of whitespace, separated by whitespace gaps, where
      the gaps between two tokens are not empty. */
  predicate SplitsInto(s: string, gaps: seq<string>, ws: seq<string>) {
    && |gaps| == |ws| + 1
    && (forall i :: 0 <= i < |gaps| ==> AllSpace(gaps[i]))
    && (forall i :: 0 < i < |ws| ==> gaps[i] != [])
    && (forall j :: 0 <= j < |ws| ==> ws[j] != [] && NoSpace(ws[j]))
    && Interleave(gaps, ws) == s
  }

  /** The whitespace gaps around and between the tokens of `s`. */
  function Gaps(s: string): (g: seq<string>)
    ensures |g| == |Words(s)| + 1
    ensures g[0] != [] <==> s != [] && IsSpace(s[0])
    decreases |s|
  {
    if s == [] then [[]]
    else if IsSpace(s[0]) then
      var g := Gaps(s[1..]);
      [[s[0]] + g[0]] + g[1..]
    else [[]] + Gaps(s[WordLength(s)..])
  }

  /** Putting more text in front of the first gap puts it in front of the
      whole interleaving. */
  lemma InterleaveExtendFirst(c: string, gaps: seq<string>, ws: seq<string>)
    requires |gaps| == |ws| + 1
    ensures Interleave([c + gaps[0]] + gaps[1..], ws) == c + Interleave(gaps, ws)
  {
    var g := [c + gaps[0]] + gaps[1..];
    assert g[1..] == gaps[1..];
  }

  /** Every gap is whitespace. */
  lemma {:induction false} GapsAreSpace(s: string)
    ensures forall i :: 0 <= i < |Gaps(s)| ==> AllSpace(Gaps(s)[i])
    decreases |s|
  {
    if s != [] && IsSpace(s[0]) {
      GapsAreSpace(s[1..]);
      var g, g' := Gaps(s), Gaps(s[1..]);
      assert forall m :: 1 <= m < |g[0]| ==> g[0][m] == g'[0][m - 1];
      assert forall i :: 1 <= i < |g| ==> g[i] == g'[i];
    } else if s != [] {
      GapsAreSpace(s[WordLength(s)..]);
    }
  }

  /** Two neighbouring tokens are separated by at least one space. */
  lemma {:induction false} InnerGapsNonEmpty(s: string)
    ensures forall i :: 0 < i < |Words(s)| ==> Gaps(s)[i] != []
    decreases |s|
  {
    if s != [] && IsSpace(s[0]) {
      InnerGapsNonEmpty(s[1..]);
    } else if s != [] {
      var t := s[WordLength(s)..];
      InnerGapsNonEmpty(t);
      if t == [] {
        assert Words(t) == [];
      }
    }
  }

  /** A token behind an empty first gap goes in front of the rest. */
  lemma InterleaveConsWord(w: string, gaps: seq<string>, ws: seq<string>)
    requires |gaps| == |ws| + 1
    ensures Interleave([[]] + gaps, [w] + ws) == w + Interleave(gaps, ws)
  {
    var g, v := [[]] + gaps, [w] + ws;
    assert g[1..] == gaps;
    assert v[1..] == ws;
    assert Interleave(g, v) == g[0] + v[0] + Interleave(gaps, ws);
    assert g[0] + v[0] == w;
  }

  /** A text that starts with a space: the space joins the first gap, and
      the tokens are those of the rest. */
  lemma SpaceFirst(s: string)
    requires s != [] && IsSpace(s[0])
    ensures Gaps(s) == [[s[0]] + Gaps(s[1..])[0]] + Gaps(s[1..])[1..]
    ensures Words(s) == Words(s[1..])
  {
  }

  /** A text that starts with a token: its first gap is empty, its first
      token is that run, and the rest come from the text after it. */
  lemma WordFirst(s: string)
    requires s != [] && !IsSpace(s[0])
    ensures Gaps(s) == [[]] + Gaps(s[WordLength(s)..])
    ensures Words(s) == [s[..WordLength(s)]] + Words(s[WordLength(s)..])
  {
  }

  /** Laying out a text that starts with a space. */
  lemma InterleaveSpaceStep(c: char, t: string, g: seq<string>, ws: seq<string>)
    requires |g| == |ws| + 1 && Interleave(g, ws) == t
    ensures Interleave([[c] + g[0]] + g[1..], ws) == [c] + t
  {
    InterleaveExtendFirst([c], g, ws);
  }

  /** Laying out a text that starts with a token. */
  lemma InterleaveWordStep(s: string, k: nat, g: seq<string>, ws: seq<string>)
    requires k <= |s| && |g| == |ws| + 1 && Interleave(g, ws) == s[k..]
    ensures Interleave([[]] + g, [s[..k]] + ws) == s
  {
    InterleaveConsWord(s[..k], g, ws);
    assert s[..k] + s[k..] == s;
  }

  /** Gaps and tokens laid out in turn give back the text. */
  lemma {:induction false} InterleaveRestores(s: string)
    ensures Interleave(Gaps(s), Words(s)) == s
    decreases |s|
  {
    if s != [] && IsSpace(s[0]) {
      var t := s[1..];
      InterleaveRestores(t);
      SpaceFirst(s);
      InterleaveSpaceStep(s[0], t, Gaps(t), Words(t));
      assert [s[0]] + t == s;
    } else if s != [] {
      var k := WordLength(s);
      InterleaveRestores(s[k..]);
      WordFirst(s);
      InterleaveWordStep(s, k, Gaps(s[k..]), Words(s[k..]));
    }
  }

  /** `split()` returns exactly the maximal runs of non-space characters,
      in order, so the token count is the number of such runs. */
  lemma WordsAreMaximalRuns(s: string)
    ensures SplitsInto(s, Gaps(s), Words(s))
  {
    GapsAreSpace(s);
    InnerGapsNonEmpty(s);
    InterleaveRestores(s);
  }

  /** Splitting finds no word exactly when the text is all whitespace. */
  lemma {:induction false} WordsEmptyIffAllSpace(s: string)
    ensures Words(s) == [] <==> AllSpace(s)
    decreases |s|
  {
    if s != [] && IsSpace(s[0]) {
      WordsEmptyIffAllSpace(s[1..]);
      assert AllSpace(s) <==> AllSpace(s[1..]) by {
        assert forall i :: 0 <= i < |s[1..]| ==> s[1..][i] == s[i + 1];
      }
    }
  }

  /** `b` occurs in `t` at offset `i`. */
  predicate OccursAt(t: string, b: string, i: int) {
    0 <= i <= |t| - |b| && t[i..i + |b|] == b
  }

  /** `b` occurs in `t` at position 0. */
  predicate IsPrefix(b: string, t: string) {
    |b| <= |t| && t[..|b|] == b
  }

  /** Python's substring test `b in t`. */
  predicate Contains(t: string, b: string)
    decreases |t|
  {
    IsPrefix(b, t) || (t != [] && Contains(t[1..], b))
  }

  /** `Contains` is the usual "occurs at some offset" relation. */
  lemma {:induction false} ContainsIffOccurs(t: string, b: string)
    ensures Contains(t, b) <==> exists i :: OccursAt(t, b, i)
    decreases |t|
  {
    if IsPrefix(b, t) {
      assert OccursAt(t, b, 0);
    } else if t == [] {
    } else {
      ContainsIffOccurs(t[1..], b);
      if exists i :: OccursAt(t, b, i) {
        var i :| OccursAt(t, b, i);
        assert i != 0;
        assert t[1..][i - 1..i - 1 + |b|] == t[i..i + |b|];
        assert OccursAt(t[1..], b, i - 1);
      }
      if Contains(t[1..], b) {
        var i :| OccursAt(t[1..], b, i);
        assert t[i + 1..i + 1 + |b|] == t[1..][i..i + |b|];
        assert OccursAt(t, b, i + 1);
      }
    }
  }

  /** A string never contains a longer one. */
  lemma {:induction false} NoLongerSubstring(t: string, b: string)
    requires |t| < |b|
    ensures !Contains(t, b)
    decreases |t|
  {
    if t != [] {
      NoLongerSubstring(t[1..], b);
    }
  }
}
