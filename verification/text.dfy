/** String primitives the pipeline relies on, written out because the model has
    no regular-expression engine and no Unicode database: whitespace
    stripping and collapsing, case mapping, substring search, Python's
    `str.replace`, decimal digits, and code-point string order. */
module Text {

  // ---------------------------------------------------------------------
  // Whitespace
  // ---------------------------------------------------------------------

  /** The characters Python's `str.isspace` accepts. On `str` patterns the
      regex class `\s` and `str.strip()` use exactly this set. */
  predicate IsSpace(c: char) {
    || ('\t' <= c <= '\r')
    || ('\U{1C}' <= c <= '\U{1F}')
    || c == ' '
    || c == '\U{85}'
    || c == '\U{A0}'
    || c == '\U{1680}'
    || ('\U{2000}' <= c <= '\U{200A}')
    || c == '\U{2028}'
    || c == '\U{2029}'
    || c == '\U{202F}'
    || c == '\U{205F}'
    || c == '\U{3000}'
  }

  predicate AllSpaces(s: string) {
    forall i :: 0 <= i < |s| ==> IsSpace(s[i])
  }

  /** Neither the first nor the last character is whitespace. */
  predicate Trimmed(s: string) {
    s == [] || (!IsSpace(s[0]) && !IsSpace(s[|s| - 1]))
  }

  /** Every whitespace character is a plain space and no two are adjacent. */
  predicate Collapsed(s: string) {
    && (forall i :: 0 <= i < |s| && IsSpace(s[i]) ==> s[i] == ' ')
    && (forall i :: 0 <= i < |s| - 1 && IsSpace(s[i]) ==> !IsSpace(s[i + 1]))
  }
  /** A non-empty text without whitespace. */
  predicate Word(w: string) {
    w != [] && forall i :: 0 <= i < |w| ==> !IsSpace(w[i])
  }

  /** A clean text, one space and a word make a clean text. */
  lemma JoinWords(a: string, b: string)
    requires a != [] && Trimmed(a) && Collapsed(a)
    requires Word(b)
    ensures Trimmed(a + " " + b) && Collapsed(a + " " + b)
  {
    var s := a + " " + b;
    assert forall i :: 0 <= i < |a| ==> s[i] == a[i];
    assert s[|a|] == ' ';
    assert forall i :: |a| < i < |s| ==> s[i] == b[i - |a| - 1];
  }


  /** The length of the whitespace run that starts the string. */
  function LeadingSpaces(s: string): (n: nat)
    ensures n <= |s|
    ensures AllSpaces(s[..n])
    ensures n == |s| || !IsSpace(s[n])
  {
    if s == [] || !IsSpace(s[0]) then 0 else 1 + LeadingSpaces(s[1..])
  }

  /** Where the whitespace run that ends the string begins. */
  function TrailingStart(s: string): (m: nat)
    ensures m <= |s|
    ensures AllSpaces(s[m..])
    ensures m == 0 || !IsSpace(s[m - 1])
  {
    if s == [] || !IsSpace(s[|s| - 1]) then |s|
    else
      var m := TrailingStart(s[..|s| - 1]);
      assert s[m..] == s[..|s| - 1][m..] + [s[|s| - 1]];
      m
  }

  /** Python's `str.strip()` without argument: the result is the slice of
      `s` left once the whitespace around it is cut away. */
  function Strip(s: string): (r: string)
    ensures Trimmed(r)
    ensures LeadingSpaces(s) + |r| <= |s|
    ensures r == s[LeadingSpaces(s)..LeadingSpaces(s) + |r|]
    ensures AllSpaces(s[..LeadingSpaces(s)]) && AllSpaces(s[LeadingSpaces(s) + |r|..])
  {
    var i := LeadingSpaces(s);
    var t := s[i..];
    var j := TrailingStart(t);
    assert t[j..] == s[i + j..];
    t[..j]
  }

  /** The non-whitespace characters of `s`, in order. */
  function Squeeze(s: string): string {
    if s == [] then []
    else if IsSpace(s[0]) then Squeeze(s[1..])
    else [s[0]] + Squeeze(s[1..])
  }

  lemma {:induction false} SqueezeAppend(a: string, b: string)
    ensures Squeeze(a + b) == Squeeze(a) + Squeeze(b)
    decreases |a|
  {
    if a == [] {
      assert a + b == b;
    } else {
      assert (a + b)[1..] == a[1..] + b;
      SqueezeAppend(a[1..], b);
    }
  }

  lemma {:induction false} SqueezeSpaces(s: string)
    requires AllSpaces(s)
    ensures Squeeze(s) == []
    decreases |s|
  {
    if s != [] {
      assert AllSpaces(s[1..]);
      SqueezeSpaces(s[1..]);
    }
  }

  /** The regex substitution `re.sub(r"\s+", " ", s)`: every maximal
      whitespace run becomes a single space. The result starts (ends) with
      whitespace exactly when `s` does. */
  function Collapse(s: string): (r: string)
    ensures |r| <= |s|
    ensures |r| == 0 <==> |s| == 0
    ensures |s| > 0 ==> (IsSpace(r[0]) <==> IsSpace(s[0]))
    ensures |s| > 0 ==> (IsSpace(r[|r| - 1]) <==> IsSpace(s[|s| - 1]))
    decreases |s|
  {
    if s == [] then []
    else if IsSpace(s[0]) then
      var n := LeadingSpaces(s);
      var rest := Collapse(s[n..]);
      assert rest != [] ==> s[|s| - 1] == s[n..][|s[n..]| - 1];
      assert rest == [] ==> s[|s| - 1] == s[..n][|s| - 1];
      [' '] + rest
    else
      var rest := Collapse(s[1..]);
      assert rest != [] ==> s[|s| - 1] == s[1..][|s[1..]| - 1];
      [s[0]] + rest
  }

  lemma CollapsedCons(c: char, t: string)
    requires Collapsed(t)
    requires IsSpace(c) ==> c == ' ' && (t == [] || !IsSpace(t[0]))
    ensures Collapsed([c] + t)
  {
    var u := [c] + t;
    forall i | 0 <= i < |u| - 1 && IsSpace(u[i])
      ensures !IsSpace(u[i + 1])
    {
      if i > 0 {
        assert u[i] == t[i - 1] && u[i + 1] == t[i];
      }
    }
  }

  /** The collapsed text has single plain spaces between its words. */
  lemma {:induction false} CollapseIsCollapsed(s: string)
    ensures Collapsed(Collapse(s))
    decreases |s|
  {
    if s != [] {
      if IsSpace(s[0]) {
        var n := LeadingSpaces(s);
        CollapseIsCollapsed(s[n..]);
        CollapsedCons(' ', Collapse(s[n..]));
      } else {
        CollapseIsCollapsed(s[1..]);
        CollapsedCons(s[0], Collapse(s[1..]));
      }
    }
  }

  /** Collapsing keeps every non-whitespace character, in order. */
  lemma {:induction false} CollapseKeepsText(s: string)
    ensures Squeeze(Collapse(s)) == Squeeze(s)
    decreases |s|
  {
    if s != [] {
      if IsSpace(s[0]) {
        var n := LeadingSpaces(s);
        var t := s[n..];
        var ct := Collapse(t);
        assert Collapse(s) == [' '] + ct;
        CollapseKeepsText(t);
        assert s == s[..n] + t;
        SqueezeAppend(s[..n], t);
        SqueezeSpaces(s[..n]);
        assert ([' '] + ct)[1..] == ct;
        assert Squeeze([' '] + ct) == Squeeze(ct);
      } else {
        var ct := Collapse(s[1..]);
        assert Collapse(s) == [s[0]] + ct;
        CollapseKeepsText(s[1..]);
        assert ([s[0]] + ct)[1..] == ct;
        assert Squeeze([s[0]] + ct) == [s[0]] + Squeeze(ct);
      }
    }
  }

  // ---------------------------------------------------------------------
  // Words: the cleaning described without reference to its two steps
  // ---------------------------------------------------------------------

  /** The length of the run of non-whitespace that starts the string. */
  function WordLength(s: string): (n: nat)
    ensures n <= |s|
    ensures forall i :: 0 <= i < n ==> !IsSpace(s[i])
    ensures n == |s| || IsSpace(s[n])
  {
    if s == [] || IsSpace(s[0]) then 0 else 1 + WordLength(s[1..])
  }

  /** The maximal runs of non-whitespace of `s`, in order (Python's
      `s.split()` without argument). */
  function Words(s: string): (ws: seq<string>)
    ensures forall i :: 0 <= i < |ws| ==> Word(ws[i])
    decreases |s|
  {
    if s == [] then []
    else if IsSpace(s[0]) then Words(s[1..])
    else
      var n := WordLength(s);
      [s[..n]] + Words(s[n..])
  }

  /** Words joined by single spaces (Python's `" ".join(ws)`). */
  function JoinBySpace(ws: seq<string>): string {
    if ws == [] then ""
    else if |ws| == 1 then ws[0]
    else ws[0] + " " + JoinBySpace(ws[1..])
  }

  lemma {:induction false} WordLengthAppend(a: string, b: string)
    requires b == [] || IsSpace(b[0])
    ensures WordLength(a + b) == WordLength(a)
    decreases |a|
  {
    if a == [] {
      assert a + b == b;
    } else if !IsSpace(a[0]) {
      assert (a + b)[1..] == a[1..] + b;
      WordLengthAppend(a[1..], b);
    }
  }

  lemma {:induction false} WordsOfSpaces(s: string)
    requires AllSpaces(s)
    ensures Words(s) == []
    decreases |s|
  {
    if s != [] {
      WordsOfSpaces(s[1..]);
    }
  }

  lemma {:induction false} WordsLeadingSpaces(a: string, b: string)
    requires AllSpaces(a)
    ensures Words(a + b) == Words(b)
    decreases |a|
  {
    if a == [] {
      assert a + b == b;
    } else {
      assert (a + b)[1..] == a[1..] + b;
      WordsLeadingSpaces(a[1..], b);
    }
  }

  lemma {:induction false} WordsTrailingSpaces(a: string, b: string)
    requires AllSpaces(b)
    ensures Words(a + b) == Words(a)
    decreases |a|
  {
    if a == [] {
      assert a + b == b;
      WordsOfSpaces(b);
    } else if IsSpace(a[0]) {
      assert (a + b)[1..] == a[1..] + b;
      WordsTrailingSpaces(a[1..], b);
    } else {
      var n := WordLength(a);
      WordLengthAppend(a, b);
      assert (a + b)[..n] == a[..n];
      assert (a + b)[n..] == a[n..] + b;
      WordsTrailingSpaces(a[n..], b);
    }
  }

  /** A word followed by whitespace (or nothing) collapses to that word
      followed by the collapsed rest. */
  lemma {:induction false} CollapseWord(w: string, rest: string)
    requires Word(w)
    requires rest == [] || IsSpace(rest[0])
    ensures Collapse(w + rest) == w + Collapse(rest)
    decreases |w|
  {
    var s := w + rest;
    assert s[1..] == w[1..] + rest;
    if |w| == 1 {
      assert s[1..] == rest;
      assert w == [w[0]];
    } else {
      CollapseWord(w[1..], rest);
      var x := Collapse(rest);
      assert Collapse(s) == [w[0]] + (w[1..] + x);
      assert w == [w[0]] + w[1..];
    }
  }

  /** A text that starts with whitespace and ends with a word: the leading
      run collapses to one space and carries no word. */
  lemma SpacedTail(u: string)
    requires u != [] && IsSpace(u[0]) && !IsSpace(u[|u| - 1])
    ensures LeadingSpaces(u) < |u|
    ensures Collapse(u) == " " + Collapse(u[LeadingSpaces(u)..])
    ensures Words(u) == Words(u[LeadingSpaces(u)..]) != []
    ensures Trimmed(u[LeadingSpaces(u)..])
  {
    var m := LeadingSpaces(u);
    assert m < |u|;
    var v := u[m..];
    assert v[|v| - 1] == u[|u| - 1];
    assert u == u[..m] + v;
    WordsLeadingSpaces(u[..m], v);
  }

  lemma JoinCons(w: string, ws: seq<string>)
    requires ws != []
    ensures JoinBySpace([w] + ws) == w + (" " + JoinBySpace(ws))
  {
    assert ([w] + ws)[1..] == ws;
  }

  /** On a text without surrounding whitespace, collapsing joins its words
      by single spaces. */
  lemma {:induction false} CollapseTrimmed(t: string)
    requires Trimmed(t)
    ensures Collapse(t) == JoinBySpace(Words(t))
    decreases |t|
  {
    if t != [] {
      var n := WordLength(t);
      var u := t[n..];
      assert t == t[..n] + u;
      CollapseWord(t[..n], u);
      if u == [] {
        assert t[..n] == t;
      } else {
        var w := t[..n];
        assert u[|u| - 1] == t[|t| - 1];
        SpacedTail(u);
        var v := u[LeadingSpaces(u)..];
        CollapseTrimmed(v);
        var ws := Words(v);
        assert Collapse(t) == w + (" " + JoinBySpace(ws));
        assert Words(t) == [w] + ws;
        JoinCons(w, ws);
      }
    }
  }

  /** The whitespace cleaning applied to every text column:
      `.str.strip().str.replace(r"\s+", " ", regex=True)`. The result is
      the words of `s` joined by single spaces: trimmed, collapsed, keeping
      every non-whitespace character in order. */
  function CleanSpaces(s: string): (r: string)
    ensures r == JoinBySpace(Words(s))
    ensures Trimmed(r)
    ensures Collapsed(r)
    ensures Squeeze(r) == Squeeze(s)
    ensures |r| <= |s|
  {
    var t := Strip(s);
    StripKeepsText(s);
    StripKeepsWords(s);
    CollapseIsCollapsed(t);
    CollapseKeepsText(t);
    CollapseTrimmed(t);
    Collapse(t)
  }

  /** Splitting words joined by single spaces gives the words back. */
  lemma {:induction false} WordsOfJoin(ws: seq<string>)
    requires forall i :: 0 <= i < |ws| ==> Word(ws[i])
    ensures Words(JoinBySpace(ws)) == ws
  {
    if |ws| == 1 {
      var w := ws[0];
      assert WordLength(w) == |w|;
      assert w[..|w|] == w && w[|w|..] == [];
    } else if |ws| > 1 {
      var w := ws[0];
      var tail := " " + JoinBySpace(ws[1..]);
      WordsOfJoin(ws[1..]);
      WordLengthAppend(w, tail);
      assert WordLength(w) == |w|;
      var s := w + tail;
      assert JoinBySpace(ws) == s;
      assert s[..|w|] == w && s[|w|..] == tail;
      assert Words(s) == [w] + Words(tail);
      assert tail[1..] == JoinBySpace(ws[1..]);
      assert Words(tail) == Words(tail[1..]);
      assert ws == [w] + ws[1..];
    }
  }

  lemma StripTrimmed(s: string)
    requires Trimmed(s)
    ensures Strip(s) == s
  {
    assert LeadingSpaces(s) == 0;
    assert TrailingStart(s) == |s|;
  }

  lemma {:induction false} CollapseCollapsed(s: string)
    requires Collapsed(s)
    ensures Collapse(s) == s
    decreases |s|
  {
    if s != [] {
      assert Collapsed(s[1..]) by {
        forall i | 0 <= i < |s[1..]| - 1 && IsSpace(s[1..][i])
          ensures !IsSpace(s[1..][i + 1])
        {
          assert s[1..][i] == s[i + 1] && s[1..][i + 1] == s[i + 2];
        }
      }
      if IsSpace(s[0]) {
        assert |s| == 1 || !IsSpace(s[1]);
        assert LeadingSpaces(s) == 1;
      }
      CollapseCollapsed(s[1..]);
    }
  }

  /** Cleaning a cleaned string changes nothing. */
  lemma CleanSpacesIdempotent(s: string)
    ensures CleanSpaces(CleanSpaces(s)) == CleanSpaces(s)
  {
    var r := CleanSpaces(s);
    StripTrimmed(r);
    CollapseCollapsed(r);
  }

  /** A cleaned string holds no line break (every whitespace is a space). */
  lemma CleanSpacesNoNewline(s: string)
    ensures '\n' !in CleanSpaces(s)
  {
  }

  /** Stripping removes whitespace only. */
  lemma StripKeepsText(s: string)
    ensures Squeeze(Strip(s)) == Squeeze(s)
  {
    var t := Strip(s);
    var i := LeadingSpaces(s);
    assert s == s[..i] + t + s[i + |t|..];
    SqueezeAppend(s[..i] + t, s[i + |t|..]);
    SqueezeAppend(s[..i], t);
    SqueezeSpaces(s[..i]);
    SqueezeSpaces(s[i + |t|..]);
  }

  /** Stripping removes no word. */
  lemma StripKeepsWords(s: string)
    ensures Words(Strip(s)) == Words(s)
  {
    var t := Strip(s);
    var i := LeadingSpaces(s);
    var rest := s[i + |t|..];
    assert s == s[..i] + (t + rest);
    WordsLeadingSpaces(s[..i], t + rest);
    WordsTrailingSpaces(t, rest);
  }

  /** Stripping leaves nothing exactly when the string is all whitespace. */
  lemma StripEmpty(s: string)
    ensures Strip(s) == [] <==> AllSpaces(s)
  {
    var i := LeadingSpaces(s);
    if Strip(s) == [] {
      assert s == s[..i] + s[i..];
    }
  }

  // ---------------------------------------------------------------------
  // Case mapping (ASCII, Latin-1 letters and the oe / y-diaeresis pairs)
  // ---------------------------------------------------------------------

  function LowerChar(c: char): char {
    if 'A' <= c <= 'Z' || ('\U{C0}' <= c <= '\U{DE}' && c != '\U{D7}') then (c as int + 32) as char
    else if c == '\U{152}' then '\U{153}'
    else if c == '\U{178}' then '\U{FF}'
    else c
  }

  function UpperChar(c: char): char {
    if 'a' <= c <= 'z' || ('\U{E0}' <= c <= '\U{FE}' && c != '\U{F7}') then (c as int - 32) as char
    else if c == '\U{153}' then '\U{152}'
    else if c == '\U{FF}' then '\U{178}'
    else c
  }

  predicate IsLower(s: string) {
    forall i :: 0 <= i < |s| ==> LowerChar(s[i]) == s[i]
  }

  predicate IsUpper(s: string) {
    forall i :: 0 <= i < |s| ==> UpperChar(s[i]) == s[i]
  }

  /** Python's `str.lower()` on the modelled alphabet. */
  function Lower(s: string): (r: string)
    ensures |r| == |s|
    ensures forall i :: 0 <= i < |s| ==> r[i] == LowerChar(s[i])
    ensures IsLower(r)
  {
    if s == [] then [] else [LowerChar(s[0])] + Lower(s[1..])
  }

  /** Python's `str.upper()` on the modelled alphabet. */
  function Upper(s: string): (r: string)
    ensures |r| == |s|
    ensures forall i :: 0 <= i < |s| ==> r[i] == UpperChar(s[i])
    ensures IsUpper(r)
  {
    if s == [] then [] else [UpperChar(s[0])] + Upper(s[1..])
  }

  lemma LowerOfLower(s: string)
    requires IsLower(s)
    ensures Lower(s) == s
  {
  }

  lemma UpperOfUpper(s: string)
    requires IsUpper(s)
    ensures Upper(s) == s
  {
  }

  /** Upper-casing ignores the case the input was in. */
  lemma UpperOfLower(s: string)
    ensures Upper(Lower(s)) == Upper(s)
  {
  }

  // ---------------------------------------------------------------------
  // Substring search and replacement
  // ---------------------------------------------------------------------

  /** Python's `w in s`. */
  predicate Contains(s: string, w: string)
    decreases |s|
  {
    w <= s || (|s| > 0 && Contains(s[1..], w))
  }

  /** Python's `any(k in s for k in ks)`. */
  predicate ContainsAny(s: string, ks: seq<string>) {
    exists k :: k in ks && Contains(s, k)
  }

  /** `w` occurs in `s` starting at index `i`. */
  predicate OccursAt(s: string, w: string, i: int) {
    0 <= i <= |s| - |w| && s[i..i + |w|] == w
  }

  /** `Contains` holds exactly when `w` occurs at some position of `s`. */
  lemma {:induction false} ContainsAt(s: string, w: string)
    ensures Contains(s, w) <==> exists i :: OccursAt(s, w, i)
    decreases |s|
  {
    if w <= s {
      assert OccursAt(s, w, 0);
    } else if |s| > 0 {
      ContainsAt(s[1..], w);
      if Contains(s[1..], w) {
        var i :| OccursAt(s[1..], w, i);
        assert s[i + 1..i + 1 + |w|] == s[1..][i..i + |w|];
        assert OccursAt(s, w, i + 1);
      }
      if exists i :: OccursAt(s, w, i) {
        var i :| OccursAt(s, w, i);
        assert i > 0;
        assert s[1..][i - 1..i - 1 + |w|] == s[i..i + |w|];
        assert OccursAt(s[1..], w, i - 1);
      }
    } else {
      assert forall i :: !OccursAt(s, w, i);
    }
  }

  lemma {:induction false} ContainsSuffix(s: string, k: nat, w: string)
    requires k <= |s|
    requires Contains(s[k..], w)
    ensures Contains(s, w)
    decreases k
  {
    if k > 0 {
      assert s[1..][k - 1..] == s[k..];
      ContainsSuffix(s[1..], k - 1, w);
    }
  }

  lemma {:induction false} ContainsLength(s: string, w: string)
    requires Contains(s, w)
    ensures |w| <= |s|
    decreases |s|
  {
    if !(w <= s) {
      ContainsLength(s[1..], w);
    }
  }

  /** The comparison `w == s[i + j..i + |w|]`, walked character by
      character from offset `j` of `w`. */
  predicate PrefixAt(s: string, w: string, i: nat, j: nat)
    decreases |w| - j
  {
    j >= |w| || (i + j < |s| && s[i + j] == w[j] && PrefixAt(s, w, i, j + 1))
  }

  /** `Contains(s[i..], w)` walked by position instead of by slicing: the
      form in which containment is decided for concrete strings. */
  predicate ContainsFrom(s: string, w: string, i: nat)
    decreases |s| - i
  {
    i + |w| <= |s| && (PrefixAt(s, w, i, 0) || ContainsFrom(s, w, i + 1))
  }

  lemma {:induction false} PrefixAtSlice(s: string, w: string, i: nat, j: nat)
    requires j <= |w| && i + |w| <= |s|
    ensures PrefixAt(s, w, i, j) <==> w[j..] == s[i + j..i + |w|]
    decreases |w| - j
  {
    if j < |w| {
      PrefixAtSlice(s, w, i, j + 1);
      assert w[j..] == [w[j]] + w[j + 1..];
      assert s[i + j..i + |w|] == [s[i + j]] + s[i + j + 1..i + |w|];
    }
  }

  /** The position-walking search agrees with `Contains`. */
  lemma {:induction false} ContainsFromSlice(s: string, w: string, i: nat)
    requires i <= |s|
    ensures ContainsFrom(s, w, i) <==> Contains(s[i..], w)
    decreases |s| - i
  {
    if i + |w| <= |s| {
      PrefixAtSlice(s, w, i, 0);
      assert w <= s[i..] <==> w == s[i..i + |w|];
      if i < |s| {
        assert s[i..][1..] == s[i + 1..];
        ContainsFromSlice(s, w, i + 1);
      }
    } else if Contains(s[i..], w) {
      ContainsLength(s[i..], w);
    }
  }

  /** Containment decided by walking the positions of `s`. */
  lemma ContainsByWalk(s: string, w: string)
    ensures Contains(s, w) <==> ContainsFrom(s, w, 0)
  {
    ContainsFromSlice(s, w, 0);
    assert s[0..] == s;
  }

  /** Python's `s.replace(p, rep)`: scanning left to right, every
      non-overlapping occurrence of `p` is replaced by `rep`. */
  function ReplaceAll(s: string, p: string, rep: string): (r: string)
    requires |p| > 0
    ensures |rep| <= |p| ==> |r| <= |s|
    ensures forall c :: c in r ==> c in s || c in rep
    decreases |s|
  {
    if p <= s then rep + ReplaceAll(s[|p|..], p, rep)
    else if s == [] then []
    else [s[0]] + ReplaceAll(s[1..], p, rep)
  }

  /** Occurrences in the tail are the occurrences past the first position. */
  lemma OccursShift(s: string, p: string, i: nat)
    requires s != []
    ensures OccursAt(s[1..], p, i) <==> OccursAt(s, p, i + 1)
  {
    if 0 <= i <= |s| - 1 - |p| {
      assert s[1..][i..i + |p|] == s[i + 1..i + 1 + |p|];
    }
  }

  /** An occurrence at the start that occurs nowhere else is replaced. */
  lemma ReplaceSingleAtStart(s: string, p: string, rep: string)
    requires |p| > 0 && OccursAt(s, p, 0)
    requires forall i :: OccursAt(s, p, i) ==> i == 0
    ensures ReplaceAll(s, p, rep) == rep + s[|p|..]
  {
    var r := s[|p|..];
    assert !Contains(r, p) by {
      ContainsAt(r, p);
      if exists i :: OccursAt(r, p, i) {
        var i :| OccursAt(r, p, i);
        assert s[i + |p|..i + |p| + |p|] == r[i..i + |p|];
        assert OccursAt(s, p, i + |p|);
      }
    }
    assert p <= s;
    ReplaceAbsent(r, p, rep);
  }

  /** A text with a single occurrence of `p` has exactly that occurrence
      replaced. */
  lemma {:induction false} ReplaceSingle(s: string, p: string, rep: string, j: nat)
    requires |p| > 0 && OccursAt(s, p, j)
    requires forall i :: OccursAt(s, p, i) ==> i == j
    ensures ReplaceAll(s, p, rep) == s[..j] + (rep + s[j + |p|..])
    decreases |s|
  {
    if j == 0 {
      ReplaceSingleAtStart(s, p, rep);
      assert s[..0] == [];
    } else {
      assert !OccursAt(s, p, 0);
      assert !(p <= s);
      var t := s[1..];
      OccursShift(s, p, j - 1);
      forall i | OccursAt(t, p, i)
        ensures i == j - 1
      {
        OccursShift(s, p, i);
      }
      ReplaceSingle(t, p, rep, j - 1);
      var x := rep + s[j + |p|..];
      assert t[j - 1 + |p|..] == s[j + |p|..];
      assert ReplaceAll(t, p, rep) == t[..j - 1] + x;
      assert s[..j] == [s[0]] + t[..j - 1];
      assert ReplaceAll(s, p, rep) == [s[0]] + (t[..j - 1] + x);
    }
  }

  /** A one-character text occurs exactly where the character does. */
  lemma {:induction false} ContainsChar(s: string, c: char)
    ensures Contains(s, [c]) <==> c in s
    decreases |s|
  {
    if s != [] {
      ContainsChar(s[1..], c);
      assert s == [s[0]] + s[1..];
    }
  }

  /** Nothing to replace leaves the text as it is. */
  lemma {:induction false} ReplaceAbsent(s: string, p: string, rep: string)
    requires |p| > 0 && !Contains(s, p)
    ensures ReplaceAll(s, p, rep) == s
    decreases |s|
  {
    if s != [] {
      ReplaceAbsent(s[1..], p, rep);
      assert s == [s[0]] + s[1..];
    }
  }

  /** A text free of the separator that starts a replacement result
      started the input too. */
  lemma {:induction false} ReplacePrefix(s: string, p: string, sep: char, w: string)
    requires |p| > 0
    requires sep !in w
    ensures w <= ReplaceAll(s, p, [sep]) ==> w <= s
    decreases |s|
  {
    var r := ReplaceAll(s, p, [sep]);
    if w != [] {
      if p <= s {
        assert r[0] == sep && w[0] != sep;
      } else if s != [] {
        assert r == [s[0]] + ReplaceAll(s[1..], p, [sep]);
        ReplacePrefix(s[1..], p, sep, w[1..]);
        if w <= r {
          assert w == [w[0]] + w[1..];
        }
      }
    }
  }

  /** Replacing by a single separator creates no new occurrence of a text
      that does not contain the separator. */
  lemma {:induction false} ReplaceNoNewOccurrence(s: string, p: string, sep: char, w: string)
    requires |p| > 0
    requires sep !in w
    requires Contains(ReplaceAll(s, p, [sep]), w)
    ensures Contains(s, w)
    decreases |s|
  {
    var r := ReplaceAll(s, p, [sep]);
    ReplacePrefix(s, p, sep, w);
    if w <= r {
    } else if p <= s {
      assert r[1..] == ReplaceAll(s[|p|..], p, [sep]);
      ReplaceNoNewOccurrence(s[|p|..], p, sep, w);
      ContainsSuffix(s, |p|, w);
    } else if s != [] {
      assert r[1..] == ReplaceAll(s[1..], p, [sep]);
      ReplaceNoNewOccurrence(s[1..], p, sep, w);
      ContainsSuffix(s, 1, w);
    }
  }

  /** After a replacement by a separator that `p` does not contain, no
      occurrence of `p` is left. */
  lemma {:induction false} ReplaceRemovesAll(s: string, p: string, sep: char)
    requires |p| > 0
    requires sep !in p
    ensures !Contains(ReplaceAll(s, p, [sep]), p)
    decreases |s|
  {
    var r := ReplaceAll(s, p, [sep]);
    ReplacePrefix(s, p, sep, p);
    if p <= s {
      assert r[0] == sep && p[0] != sep;
      assert r[1..] == ReplaceAll(s[|p|..], p, [sep]);
      ReplaceRemovesAll(s[|p|..], p, sep);
    } else if s != [] {
      assert r[1..] == ReplaceAll(s[1..], p, [sep]);
      ReplaceRemovesAll(s[1..], p, sep);
    }
  }

  /** Deleting a one-character pattern leaves no occurrence of that character. */
  lemma {:induction false} DeleteChar(s: string, c: char)
    ensures c !in ReplaceAll(s, [c], "")
    decreases |s|
  {
    if s != [] {
      DeleteChar(s[1..], c);
    }
  }

  // ---------------------------------------------------------------------
  // Decimal digits
  // ---------------------------------------------------------------------

  predicate IsDigit(c: char) {
    '0' <= c <= '9'
  }

  predicate AllDigits(s: string) {
    forall i :: 0 <= i < |s| ==> IsDigit(s[i])
  }

  /** The value of a string of decimal digits, most significant first. */
  function ParseDecimal(ds: string): nat
    requires AllDigits(ds)
  {
    if ds == [] then 0
    else 10 * ParseDecimal(ds[..|ds| - 1]) + (ds[|ds| - 1] as int - '0' as int)
  }

  /** Python's `str(n)` for a natural number. */
  function ShowNat(n: nat): (s: string)
    ensures |s| > 0 && AllDigits(s)
    ensures |s| > 1 ==> s[0] != '0'
  {
    if n < 10 then [('0' as int + n) as char]
    else ShowNat(n / 10) + [('0' as int + n % 10) as char]
  }

  /** Reading back the decimal rendering of a number gives the number. */
  lemma {:induction false} ParseShowNat(n: nat)
    ensures ParseDecimal(ShowNat(n)) == n
  {
    if n >= 10 {
      var s := ShowNat(n);
      assert s[..|s| - 1] == ShowNat(n / 10);
      ParseShowNat(n / 10);
    }
  }

  /** Leading zeros do not change the value. */
  lemma {:induction false} ParseLeadingZero(ds: string)
    requires AllDigits(ds)
    ensures ParseDecimal("0" + ds) == ParseDecimal(ds)
    decreases |ds|
  {
    if ds != [] {
      var z := "0" + ds;
      assert z[..|z| - 1] == "0" + ds[..|ds| - 1];
      ParseLeadingZero(ds[..|ds| - 1]);
    }
  }

  // ---------------------------------------------------------------------
  // Code-point order on strings (Python's `<` on `str`)
  // ---------------------------------------------------------------------

  predicate StrLt(a: string, b: string)
    decreases |a|
  {
    if a == [] then b != []
    else b != [] && (a[0] < b[0] || (a[0] == b[0] && StrLt(a[1..], b[1..])))
  }

  lemma {:induction false} StrLtIrreflexive(a: string)
    ensures !StrLt(a, a)
    decreases |a|
  {
    if a != [] {
      StrLtIrreflexive(a[1..]);
    }
  }

  lemma {:induction false} StrLtTransitive(a: string, b: string, c: string)
    requires StrLt(a, b) && StrLt(b, c)
    ensures StrLt(a, c)
    decreases |a|
  {
    if a != [] && a[0] == b[0] && b[0] == c[0] {
      StrLtTransitive(a[1..], b[1..], c[1..]);
    }
  }

  lemma {:induction false} StrLtTotal(a: string, b: string)
    requires a != b
    ensures StrLt(a, b) || StrLt(b, a)
    decreases |a|
  {
    if a != [] && b != [] && a[0] == b[0] {
      assert a == [a[0]] + a[1..] && b == [b[0]] + b[1..];
      StrLtTotal(a[1..], b[1..]);
    }
  }
}
