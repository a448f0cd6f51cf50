/** The scoring stage of the pipeline (`classification.py`): the text fed to
    the classifier, the "very much sought-after job" label, the salary
    heuristic and its bands, and the normalised popularity score. The
    TF-IDF vectoriser and the logistic regression stay outside the model:
    their predictions and the cluster numbers arrive as inputs. */
module Classification {
  import opened Wrappers
  import opened Text
  import opened Seqs
  import opened Domain
  import opened PrepareData

  // ---------------------------------------------------------------------
  // Text for the classifier (`nettoyer_texte`)
  // ---------------------------------------------------------------------

  /** The boilerplate removed from the text, in the order it is removed. */
  const Remplacements: seq<string> :=
    ["h/f", "h / f", "(h/f)", "(h / f)", " cdi ", " cdd ", " stage ", " alternance ",
     " france ", " hf ", " h f "]

  /** Replacing each pattern of `ps` in turn by one space. */
  function ReplaceEach(t: string, ps: seq<string>): (r: string)
    requires forall p :: p in ps ==> |p| > 0
    ensures |r| <= |t|
    ensures forall c :: c in r ==> c in t || c == ' '
    decreases |ps|
  {
    if ps == [] then t else ReplaceEach(ReplaceAll(t, ps[0], " "), ps[1..])
  }

  /** A text without spaces that is absent stays absent: the replacements
      only ever insert single spaces. */
  lemma {:induction false} ReplaceEachKeepsAbsent(t: string, ps: seq<string>, w: string)
    requires forall p :: p in ps ==> |p| > 0
    requires ' ' !in w && !Contains(t, w)
    ensures !Contains(ReplaceEach(t, ps), w)
    decreases |ps|
  {
    if ps != [] {
      var next := ReplaceAll(t, ps[0], " ");
      if Contains(next, w) {
        ReplaceNoNewOccurrence(t, ps[0], ' ', w);
      }
      ReplaceEachKeepsAbsent(next, ps[1..], w);
    }
  }

  /** Characters drawn from a lower-case text or the space give a lower-case
      text. */
  lemma LowerChars(t: string, r: string)
    requires IsLower(t)
    requires forall c :: c in r ==> c in t || c == ' '
    ensures IsLower(r)
  {
    forall i | 0 <= i < |r|
      ensures LowerChar(r[i]) == r[i]
    {
      assert r[i] in r;
      if r[i] != ' ' {
        var j :| 0 <= j < |t| && t[j] == r[i];
      }
    }
  }

  /** `nettoyer_texte`: lower-cased, with the gender marker "h/f" gone for
      good (a later replacement cannot bring it back, since it only inserts
      spaces), and never longer than the input. */
  function NettoyerTexte(texte: string): (r: string)
    ensures IsLower(r)
    ensures |r| <= |texte|
    ensures !Contains(r, "h/f")
  {
    var t := Lower(texte);
    var first := ReplaceAll(t, "h/f", " ");
    ReplaceRemovesAll(t, "h/f", ' ');
    ReplaceEachKeepsAbsent(first, Remplacements[1..], "h/f");
    var r := ReplaceEach(t, Remplacements);
    LowerChars(t, r);
    r
  }

  /** Cleaning ignores case. */
  lemma NettoyerTexteIgnoresCase(texte: string)
    ensures NettoyerTexte(Lower(texte)) == NettoyerTexte(texte)
  {
    LowerOfLower(Lower(texte));
  }

  /** Cleaning an already cleaned text removes no further gender marker, and
      a text without any boilerplate is only lower-cased. */
  lemma {:induction false} NettoyerTexteNoBoilerplate(texte: string)
    requires forall p :: p in Remplacements ==> !Contains(Lower(texte), p)
    ensures NettoyerTexte(texte) == Lower(texte)
  {
    var t := Lower(texte);
    NoneReplaced(t, Remplacements);
  }

  /** A single occurrence of pattern `k` is replaced by one space when the
      earlier patterns do not occur and the later ones do not occur in the
      result. */
  lemma {:induction false} ReplaceEachOne(t: string, ps: seq<string>, k: nat, a: string, b: string)
    requires forall p :: p in ps ==> |p| > 0
    requires k < |ps| && t == a + ps[k] + b
    requires forall j :: 0 <= j < k ==> !Contains(t, ps[j])
    requires forall i :: OccursAt(t, ps[k], i) ==> i == |a|
    requires forall j :: k < j < |ps| ==> !Contains(a + " " + b, ps[j])
    ensures ReplaceEach(t, ps) == a + " " + b
    decreases k
  {
    if k == 0 {
      var p0 := ps[0];
      var m := a + " " + b;
      assert t[..|a|] == a && t[|a|..|a| + |p0|] == p0 && t[|a| + |p0|..] == b;
      ReplaceSingle(t, p0, " ", |a|);
      assert ReplaceAll(t, p0, " ") == m;
      forall p | p in ps[1..]
        ensures |p| > 0 && !Contains(m, p)
      {
        var j :| 0 <= j < |ps[1..]| && ps[1..][j] == p;
        assert ps[j + 1] == p;
      }
      NoneReplaced(m, ps[1..]);
      assert ReplaceEach(t, ps) == ReplaceEach(m, ps[1..]);
    } else {
      ReplaceAbsent(t, ps[0], " ");
      ReplaceEachOne(t, ps[1..], k - 1, a, b);
    }
  }

  /** One boilerplate pattern, with no other pattern before it in the list
      present and none after it straddling the cut, is replaced by a single
      space; all other text is only lower-cased. */
  lemma NettoyerTexteOnePattern(texte: string, a: string, k: nat, b: string)
    requires k < |Remplacements|
    requires Lower(texte) == a + Remplacements[k] + b
    requires forall j :: 0 <= j < k ==> !Contains(Lower(texte), Remplacements[j])
    requires forall i :: OccursAt(Lower(texte), Remplacements[k], i) ==> i == |a|
    requires forall j :: k < j < |Remplacements| ==> !Contains(a + " " + b, Remplacements[j])
    ensures NettoyerTexte(texte) == a + " " + b
  {
    ReplaceEachOne(Lower(texte), Remplacements, k, a, b);
  }

  /** Patterns that do not occur leave the text unchanged. */
  lemma {:induction false} NoneReplaced(t: string, ps: seq<string>)
    requires forall p :: p in ps ==> |p| > 0 && !Contains(t, p)
    ensures ReplaceEach(t, ps) == t
    decreases |ps|
  {
    if ps != [] {
      ReplaceAbsent(t, ps[0], " ");
      NoneReplaced(t, ps[1..]);
    }
  }

  // ---------------------------------------------------------------------
  // The label `metier_tres_demande`
  // ---------------------------------------------------------------------

  /** The index below the `num / den` quantile's position `(n - 1) * num / den`. */
  function QuantileFloor(n: nat, num: nat, den: nat): (lo: nat)
    requires 0 < n && 0 < den && num <= den
    ensures lo <= n - 1
    ensures lo * den <= (n - 1) * num < (lo + 1) * den
  {
    var h := (n - 1) * num;
    assert h <= (n - 1) * den by {
      MulMono(n - 1, num, den);
    }
    DivBelow(h, den, n - 1);
    h / den
  }

  lemma MulMono(a: nat, b: nat, c: nat)
    requires b <= c
    ensures a * b <= a * c
  {
  }

  lemma DivBelow(h: nat, den: nat, m: nat)
    requires 0 < den && h <= m * den
    ensures h / den <= m
    ensures (h / den) * den <= h < (h / den + 1) * den
  {
  }

  /** `a + (b - a) * f`, the point a fraction `f` of the way from `a` to `b`. */
  function Lerp(a: int, b: int, f: real): (r: real)
    requires a <= b && 0.0 <= f <= 1.0
    ensures a as real <= r <= b as real
  {
    var d := (b - a) as real;
    assert 0.0 <= d * f <= d;
    a as real + d * f
  }

  /** A remainder over its divisor is a fraction below one. */
  lemma Fraction(h: int, den: int)
    requires 0 <= h < den
    ensures 0.0 <= h as real / den as real < 1.0
  {
  }

  /** The `num / den` quantile of sorted values with linear interpolation
      (the default of `Series.quantile`): the position `(n - 1) * num / den`
      splits the values, so every value up to the floor index is at most
      the quantile and every value after it is at least the quantile. */
  function Quantile(sorted: seq<int>, num: nat, den: nat): (q: real)
    requires |sorted| > 0 && Sorted(sorted)
    requires 0 < den && num <= den
    ensures sorted[0] as real <= q <= sorted[|sorted| - 1] as real
    ensures forall i :: 0 <= i <= QuantileFloor(|sorted|, num, den) ==> sorted[i] as real <= q
    ensures forall i :: QuantileFloor(|sorted|, num, den) < i < |sorted| ==> q <= sorted[i] as real
    ensures var lo := QuantileFloor(|sorted|, num, den);
      var h := (|sorted| - 1) * num - lo * den;
      && (h == 0 ==> q == sorted[lo] as real)
      && (h > 0 ==>
            lo + 1 < |sorted| &&
            q * den as real == (sorted[lo] * (den - h) + sorted[lo + 1] * h) as real)
  {
    var q := Interpolate(sorted, num, den);
    InterpolateBounds(sorted, num, den);
    InterpolateFormula(sorted, num, den);
    q
  }

  /** The value the fraction of the way from the value at the floor index
      to the next one. */
  function Interpolate(sorted: seq<int>, num: nat, den: nat): real
    requires |sorted| > 0 && Sorted(sorted)
    requires 0 < den && num <= den
  {
    var n := |sorted|;
    var lo := QuantileFloor(n, num, den);
    var h := (n - 1) * num - lo * den;
    Fraction(h, den);
    if lo + 1 < n then Lerp(sorted[lo], sorted[lo + 1], h as real / den as real)
    else sorted[lo] as real
  }

  lemma InterpolateBounds(sorted: seq<int>, num: nat, den: nat)
    requires |sorted| > 0 && Sorted(sorted)
    requires 0 < den && num <= den
    ensures var q := Interpolate(sorted, num, den);
      && sorted[0] as real <= q <= sorted[|sorted| - 1] as real
      && (forall i :: 0 <= i <= QuantileFloor(|sorted|, num, den) ==> sorted[i] as real <= q)
      && (forall i :: QuantileFloor(|sorted|, num, den) < i < |sorted| ==> q <= sorted[i] as real)
  {
  }

  lemma InterpolateFormula(sorted: seq<int>, num: nat, den: nat)
    requires |sorted| > 0 && Sorted(sorted)
    requires 0 < den && num <= den
    ensures var q := Interpolate(sorted, num, den);
      var lo := QuantileFloor(|sorted|, num, den);
      var h := (|sorted| - 1) * num - lo * den;
      && (h == 0 ==> q == sorted[lo] as real)
      && (h > 0 ==>
            lo + 1 < |sorted| &&
            q * den as real == (sorted[lo] * (den - h) + sorted[lo + 1] * h) as real)
  {
    var n := |sorted|;
    var lo := QuantileFloor(n, num, den);
    var h := (n - 1) * num - lo * den;
    if lo + 1 < n {
      LerpScaled(sorted[lo], sorted[lo + 1], h, den);
    } else {
      MulMono(n - 1, num, den);
    }
  }

  /** The point `h / den` of the way from `a` to `b`, scaled by `den`, is the
      weighted sum of the two ends. */
  lemma LerpScaled(a: int, b: int, h: int, den: int)
    requires a <= b && 0 <= h < den
    ensures Lerp(a, b, h as real / den as real) * den as real == (a * (den - h) + b * h) as real
    ensures h == 0 ==> Lerp(a, b, h as real / den as real) == a as real
  {
    var f := h as real / den as real;
    Fraction(h, den);
    assert f * den as real == h as real;
    calc {
      Lerp(a, b, f) * den as real;
      (a as real + (b - a) as real * f) * den as real;
      a as real * den as real + (b - a) as real * (f * den as real);
      a as real * den as real + (b - a) as real * h as real;
      (a * (den - h) + b * h) as real;
    }
  }

  /** The exact quantile position falls on a value. */
  lemma QuantileOnIndex(sorted: seq<int>, num: nat, den: nat)
    requires |sorted| > 0 && Sorted(sorted)
    requires 0 < den && num <= den
    requires ((|sorted| - 1) * num) % den == 0
    ensures Quantile(sorted, num, den) == sorted[QuantileFloor(|sorted|, num, den)] as real
  {
    var n := |sorted|;
    var lo := QuantileFloor(n, num, den);
    assert (n - 1) * num == lo * den;
  }

  /** The number of rows of each distinct title, in increasing order
      (`value_counts()`, sorted as `quantile` sorts it): one count per
      distinct title, a count occurring once per title having it. */
  function SortedTitleCounts(titles: seq<string>): (cs: seq<int>)
    ensures Sorted(cs)
    ensures |cs| == |Members(titles)|
    ensures |cs| == 0 <==> titles == []
    ensures forall c :: multiset(cs)[c] == |WithCount(titles, titles, c)|
    ensures forall c :: c in cs ==> exists t :: t in titles && c == Count(titles, t)
    ensures forall t :: t in titles ==> Count(titles, t) in cs
  {
    var u := SortedUnique(titles);
    var counts := CountsOf(titles, u);
    var cs := SortInts(counts);
    TitleCensus(titles);
    CountsMembers(titles, u);
    assert |cs| == |multiset(cs)| == |multiset(counts)| == |counts|;
    cs
  }

  /** The distinct values of `xs`. */
  function Members(xs: seq<string>): set<string> {
    set t | t in xs
  }

  /** Counting the distinct sorted titles: one count per distinct title,
      each count occurring once per title that has it. */
  lemma TitleCensus(titles: seq<string>)
    ensures var u := SortedUnique(titles);
      && |CountsOf(titles, u)| == |Members(titles)|
      && (|u| == 0 <==> titles == [])
      && forall c :: multiset(CountsOf(titles, u))[c] == |WithCount(titles, titles, c)|
  {
    var u := SortedUnique(titles);
    StrictlySortedDistinct(u);
    assert Members(titles) == Members(u);
    DistinctCard(u);
    forall c
      ensures multiset(CountsOf(titles, u))[c] == |WithCount(titles, titles, c)|
    {
      CountsOfMultiplicity(titles, u, c);
      assert WithCount(titles, titles, c) == WithCount(titles, u, c);
    }
    if titles != [] {
      assert titles[0] in u;
    }
  }

  /** The counts of `u` are exactly the counts of its titles, in any
      order, as membership goes. */
  lemma CountsMembers(titles: seq<string>, u: seq<string>)
    requires forall t :: t in u <==> t in titles
    ensures forall c :: c in SortInts(CountsOf(titles, u)) ==> exists t :: t in titles && c == Count(titles, t)
    ensures forall t :: t in titles ==> Count(titles, t) in SortInts(CountsOf(titles, u))
  {
    var counts := CountsOf(titles, u);
    var cs := SortInts(counts);
    forall c
      ensures c in cs <==> c in counts
    {
      assert c in cs <==> c in multiset(cs);
      assert c in counts <==> c in multiset(counts);
    }
    forall t | t in titles
      ensures Count(titles, t) in cs
    {
      var i :| 0 <= i < |u| && u[i] == t;
      assert counts[i] == Count(titles, t);
    }
    forall c | c in cs
      ensures exists t :: t in titles && c == Count(titles, t)
    {
      var i :| 0 <= i < |counts| && counts[i] == c;
      assert u[i] in u;
    }
  }

  /** The row count of each title of `u`. */
  function CountsOf(titles: seq<string>, u: seq<string>): (cs: seq<int>)
    ensures |cs| == |u|
    ensures forall i :: 0 <= i < |u| ==> cs[i] == Count(titles, u[i])
  {
    if u == [] then [] else [Count(titles, u[0])] + CountsOf(titles, u[1..])
  }

  /** No value occurs twice. */
  predicate Distinct(u: seq<string>) {
    forall i, j :: 0 <= i < j < |u| ==> u[i] != u[j]
  }

  /** Taking the head off a sequence without repeats. */
  lemma DistinctUncons(u: seq<string>)
    requires u != [] && Distinct(u)
    ensures Distinct(u[1..]) && u[0] !in u[1..]
    ensures forall t :: t in u <==> t == u[0] || t in u[1..]
  {
    var tail := u[1..];
    forall i, j | 0 <= i < j < |tail|
      ensures tail[i] != tail[j]
    {
      assert tail[i] == u[i + 1] && tail[j] == u[j + 1];
    }
    forall j | 0 <= j < |tail|
      ensures tail[j] != u[0]
    {
      assert tail[j] == u[j + 1];
    }
    assert u == [u[0]] + tail;
  }

  /** The titles of `u` having exactly `c` rows. */
  function WithCount(titles: seq<string>, u: seq<string>, c: int): set<string> {
    set t | t in u && Count(titles, t) == c
  }

  /** Over distinct titles, a count occurs once per title having it. */
  lemma {:induction false} CountsOfMultiplicity(titles: seq<string>, u: seq<string>, c: int)
    requires Distinct(u)
    ensures multiset(CountsOf(titles, u))[c] == |WithCount(titles, u, c)|
  {
    if u == [] {
      assert WithCount(titles, u, c) == {};
    } else {
      DistinctUncons(u);
      CountsOfMultiplicity(titles, u[1..], c);
      WithCountUncons(titles, u, c);
      var k := Count(titles, u[0]);
      assert CountsOf(titles, u) == [k] + CountsOf(titles, u[1..]);
      MultisetConsCount(k, CountsOf(titles, u[1..]), c);
    }
  }

  /** Putting `k` in front adds one occurrence of `k` and nothing else. */
  lemma MultisetConsCount(k: int, s: seq<int>, c: int)
    ensures multiset([k] + s)[c] == multiset(s)[c] + (if k == c then 1 else 0)
  {
    assert multiset([k] + s) == multiset{k} + multiset(s);
  }

  /** The head of a sequence without repeats adds itself to the titles with
      its count, and nothing else. */
  lemma WithCountUncons(titles: seq<string>, u: seq<string>, c: int)
    requires u != [] && u[0] !in u[1..]
    ensures |WithCount(titles, u, c)| ==
      |WithCount(titles, u[1..], c)| + (if Count(titles, u[0]) == c then 1 else 0)
  {
    var rest := WithCount(titles, u[1..], c);
    var all := WithCount(titles, u, c);
    assert u == [u[0]] + u[1..];
    if Count(titles, u[0]) == c {
      assert all == rest + {u[0]};
      assert u[0] !in rest;
    } else {
      assert all == rest;
    }
  }

  /** A sequence of distinct elements has as many elements as members. */
  lemma {:induction false} DistinctCard(u: seq<string>)
    requires Distinct(u)
    ensures |Members(u)| == |u|
  {
    if u == [] {
      assert Members(u) == {};
    } else {
      var tail := u[1..];
      DistinctUncons(u);
      DistinctCard(tail);
      assert Members(u) == Members(tail) + {u[0]};
    }
  }

  /** `titre_counts.quantile(0.80)`, `None` standing for the NaN an empty
      table gives. The threshold is at least one row and is reached by the
      most frequent title. */
  function Seuil(titles: seq<string>): (s: Option<real>)
    ensures s.None? <==> titles == []
    ensures s.Some? ==> 1.0 <= s.value
    ensures s.Some? ==> exists t :: t in titles && s.value <= Count(titles, t) as real
    ensures s.Some? ==> var cs := SortedTitleCounts(titles); |cs| > 0 && s.value == Quantile(cs, 4, 5)
  {
    var cs := SortedTitleCounts(titles);
    if cs == [] then
      None
    else
      var q := Quantile(cs, 4, 5);
      assert cs[0] in cs && cs[|cs| - 1] in cs;
      Some(q)
  }

  /** `metier_tres_demande`: 1 when the title's row count reaches the
      threshold, 0 otherwise (also when the threshold is NaN, since any
      comparison with NaN is false). Only titles of the table can get 1. */
  function MetierTresDemande(titles: seq<string>, titre: string): (demanded: nat)
    ensures demanded <= 1
    ensures demanded == 1 <==> Seuil(titles).Some? && Seuil(titles).value <= Count(titles, titre) as real
    ensures demanded == 1 ==> titre in titles
  {
    match Seuil(titles)
    case None => 0
    case Some(q) => if Count(titles, titre) as real >= q then 1 else 0
  }

  /** The most frequent title is always labelled. */
  lemma MostFrequentIsDemanded(titles: seq<string>, titre: string)
    requires titre in titles
    requires forall t :: t in titles ==> Count(titles, t) <= Count(titles, titre)
    ensures MetierTresDemande(titles, titre) == 1
  {
    var q := Seuil(titles).value;
    var t :| t in titles && q <= Count(titles, t) as real;
  }

  /** The label only grows with the row count. */
  lemma DemandMonotone(titles: seq<string>, a: string, b: string)
    requires Count(titles, a) <= Count(titles, b)
    ensures MetierTresDemande(titles, a) <= MetierTresDemande(titles, b)
  {
  }

  /** When every title has the same number of rows, every title is labelled. */
  lemma UniformCountsAllDemanded(titles: seq<string>, k: nat)
    requires forall t :: t in titles ==> Count(titles, t) == k
    ensures forall t :: t in titles ==> MetierTresDemande(titles, t) == 1
  {
    if titles != [] {
      var q := Seuil(titles).value;
      var w :| w in titles && q <= Count(titles, w) as real;
    }
  }

  /** The label against the sorted counts around the quantile position
      (roughly the top fifth of the distinct titles): a count reaching the
      value just past the position is labelled, a count below the value at
      the position is not, and when the position falls on a value the label
      is exactly "reaches that value". */
  lemma TopFifthDemanded(titles: seq<string>, titre: string)
    requires titles != []
    ensures var cs := SortedTitleCounts(titles);
      var lo := QuantileFloor(|cs|, 4, 5);
      var c := Count(titles, titre);
      && (lo + 1 < |cs| && cs[lo + 1] <= c ==> MetierTresDemande(titles, titre) == 1)
      && (c < cs[lo] ==> MetierTresDemande(titles, titre) == 0)
      && ((|cs| - 1) * 4 % 5 == 0 ==> (MetierTresDemande(titles, titre) == 1 <==> cs[lo] <= c))
  {
    TopFifthAbove(titles, titre);
    TopFifthBelow(titles, titre);
    TopFifthOnIndex(titles, titre);
  }

  lemma TopFifthAbove(titles: seq<string>, titre: string)
    requires titles != []
    ensures var cs := SortedTitleCounts(titles);
      var lo := QuantileFloor(|cs|, 4, 5);
      lo + 1 < |cs| && cs[lo + 1] <= Count(titles, titre) ==> MetierTresDemande(titles, titre) == 1
  {
    var cs := SortedTitleCounts(titles);
    var lo := QuantileFloor(|cs|, 4, 5);
    var q := DemandedAgainstQuantile(titles, titre);
    if lo + 1 < |cs| {
      assert q <= cs[lo + 1] as real;
    }
  }

  lemma TopFifthBelow(titles: seq<string>, titre: string)
    requires titles != []
    ensures var cs := SortedTitleCounts(titles);
      Count(titles, titre) < cs[QuantileFloor(|cs|, 4, 5)] ==> MetierTresDemande(titles, titre) == 0
  {
    var cs := SortedTitleCounts(titles);
    var lo := QuantileFloor(|cs|, 4, 5);
    var q := DemandedAgainstQuantile(titles, titre);
    assert cs[lo] as real <= q;
  }

  lemma TopFifthOnIndex(titles: seq<string>, titre: string)
    requires titles != []
    ensures var cs := SortedTitleCounts(titles);
      (|cs| - 1) * 4 % 5 == 0 ==>
        (MetierTresDemande(titles, titre) == 1 <==> cs[QuantileFloor(|cs|, 4, 5)] <= Count(titles, titre))
  {
    var cs := SortedTitleCounts(titles);
    var q := DemandedAgainstQuantile(titles, titre);
    if (|cs| - 1) * 4 % 5 == 0 {
      QuantileOnIndex(cs, 4, 5);
    }
  }

  /** On a non-empty table the label is "the count reaches the 0.8
      quantile of the sorted counts"; returns that quantile. */
  lemma DemandedAgainstQuantile(titles: seq<string>, titre: string) returns (q: real)
    requires titles != []
    ensures |SortedTitleCounts(titles)| > 0
    ensures q == Quantile(SortedTitleCounts(titles), 4, 5)
    ensures MetierTresDemande(titles, titre) == 1 <==> q <= Count(titles, titre) as real
  {
    q := Seuil(titles).value;
  }

  // ---------------------------------------------------------------------
  // The salary heuristic (`estimer_salaire`)
  // ---------------------------------------------------------------------

  const LeadershipWords: seq<string> := ["manager", "directeur", "responsable", "chef", "lead"]
  const ExpertiseWords: seq<string> := ["senior", "expert", "ingénieur", "developpeur", "développeur"]
  const JuniorWords: seq<string> := ["junior", "assistant", "stagiaire"]

  const BaseSalaryScore: int := 50

  /** Points for the contract: a permanent contract outranks a fixed-term
      one, and a text mentioning both counts as permanent. */
  function ContractPoints(contrat: string): (p: int)
    ensures p == 20 <==> Contains(Upper(contrat), "CDI")
    ensures p == 10 <==> !Contains(Upper(contrat), "CDI") && Contains(Upper(contrat), "CDD")
    ensures p == 0 <==> !Contains(Upper(contrat), "CDI") && !Contains(Upper(contrat), "CDD")
  {
    var c := Upper(contrat);
    if Contains(c, "CDI") then 20 else if Contains(c, "CDD") then 10 else 0
  }

  /** Points for the domain. "Santé" and "Industrie" are listed too, though
      the tagger never produces them (see `SalaryDomainsReachable`). */
  function DomainPoints(domaine: string): (p: int)
    ensures 0 <= p <= 25
    ensures p > 0 <==> domaine in {"Informatique", "Santé", "Industrie", "Commerce"}
    ensures domaine == "Informatique" ==> p == 25
    ensures domaine == "Santé" ==> p == 15
    ensures domaine == "Industrie" ==> p == 10
    ensures domaine == "Commerce" ==> p == 5
  {
    if domaine == "Informatique" then 25
    else if domaine == "Santé" then 15
    else if domaine == "Industrie" then 10
    else if domaine == "Commerce" then 5
    else 0
  }

  /** Points for the title: each keyword group counts once, whatever the
      number of its keywords present. */
  function TitlePoints(titre: string): (p: int)
    ensures -10 <= p <= 35
    ensures p < 0 <==> p == -10
  {
    var t := Lower(titre);
    (if ContainsAny(t, LeadershipWords) then 20 else 0)
    + (if ContainsAny(t, ExpertiseWords) then 15 else 0)
    - (if ContainsAny(t, JuniorWords) then 10 else 0)
  }

  /** The title points for each combination of keyword groups present. */
  lemma TitlePointsTable(titre: string)
    ensures var t := Lower(titre);
      var l := ContainsAny(t, LeadershipWords);
      var e := ContainsAny(t, ExpertiseWords);
      var j := ContainsAny(t, JuniorWords);
      && (!l && !e && !j ==> TitlePoints(titre) == 0)
      && (!l && !e && j ==> TitlePoints(titre) == -10)
      && (!l && e && !j ==> TitlePoints(titre) == 15)
      && (!l && e && j ==> TitlePoints(titre) == 5)
      && (l && !e && !j ==> TitlePoints(titre) == 20)
      && (l && !e && j ==> TitlePoints(titre) == 10)
      && (l && e && !j ==> TitlePoints(titre) == 35)
      && (l && e && j ==> TitlePoints(titre) == 25)
  {
  }

  /** The score before clamping. */
  function RawSalaryScore(contrat: string, domaine: string, titre: string): (s: int)
    ensures 40 <= s <= 130
  {
    BaseSalaryScore + ContractPoints(contrat) + DomainPoints(domaine) + TitlePoints(titre)
  }

  /** `estimer_salaire`: the raw score clamped to 0..100. The lower clamp
      never acts, so the score lies in 40..100, and it equals the raw score
      whenever that is at most 100. */
  function EstimerSalaire(contrat: string, domaine: string, titre: string): (score: int)
    ensures 40 <= score <= 100
    ensures score <= RawSalaryScore(contrat, domaine, titre)
    ensures RawSalaryScore(contrat, domaine, titre) <= 100 ==>
      score == RawSalaryScore(contrat, domaine, titre)
    ensures RawSalaryScore(contrat, domaine, titre) > 100 ==> score == 100
  {
    var raw := RawSalaryScore(contrat, domaine, titre);
    if raw < 0 then 0 else if raw > 100 then 100 else raw
  }

  /** The lowest score, 40, is given exactly to titles with a junior keyword
      and no other keyword, in a domain without points, under a contract
      that is neither permanent nor fixed-term. */
  lemma SalaryFloor(contrat: string, domaine: string, titre: string)
    ensures EstimerSalaire(contrat, domaine, titre) == 40 <==>
      && ContractPoints(contrat) == 0
      && DomainPoints(domaine) == 0
      && var t := Lower(titre);
         ContainsAny(t, JuniorWords) && !ContainsAny(t, LeadershipWords) && !ContainsAny(t, ExpertiseWords)
  {
  }

  /** A permanent computing job with a leadership title reaches the ceiling. */
  lemma SalaryCeiling(contrat: string, titre: string)
    requires Contains(Upper(contrat), "CDI")
    requires ContainsAny(Lower(titre), LeadershipWords)
    ensures EstimerSalaire(contrat, "Informatique", titre) == 100
  {
  }

  /** Only three domain bonuses can occur on tagged rows: the tagger never
      produces "Santé" or "Industrie". */
  lemma SalaryDomainsReachable(titre: string)
    ensures DomainPoints(ExtraireDomaine(titre)) in {0, 5, 25}
  {
    var d := ExtraireDomaine(titre);
    assert d in Tags;
  }

  /** The heuristic ignores the case of the contract and of the title. */
  lemma SalaryIgnoresCase(contrat: string, domaine: string, titre: string)
    ensures EstimerSalaire(Lower(contrat), domaine, Lower(titre)) == EstimerSalaire(contrat, domaine, titre)
  {
    UpperOfLower(contrat);
    LowerOfLower(Lower(titre));
  }

  /** Of two rows differing only in the contract, a permanent contract never
      scores lower. */
  lemma PermanentNeverLower(cdi: string, other: string, domaine: string, titre: string)
    requires Contains(Upper(cdi), "CDI")
    ensures EstimerSalaire(other, domaine, titre) <= EstimerSalaire(cdi, domaine, titre)
  {
  }

  // ---------------------------------------------------------------------
  // Salary bands (`pd.cut`)
  // ---------------------------------------------------------------------

  /** The four salary bands; `Eleve` is the band labelled "Élevé". */
  datatype Niveau = Bas | Moyen | Bon | Eleve

  /** The band edges: band `k` is the interval `(Bins[k], Bins[k + 1]]`. */
  const Bins: seq<int> := [0, 40, 60, 80, 100]

  /** The position of a band, lowest first. */
  function Rank(n: Niveau): (k: nat)
    ensures k < |Bins| - 1
  {
    match n
    case Bas => 0
    case Moyen => 1
    case Bon => 2
    case Eleve => 3
  }

  /** `pd.cut(score, bins=[0, 40, 60, 80, 100])` with right-closed bands:
      the band whose interval holds the score, `None` (NaN) outside
      `(0, 100]`. */
  function NiveauSalaire(score: int): (r: Option<Niveau>)
    ensures r.None? <==> score <= Bins[0] || Bins[|Bins| - 1] < score
    ensures r.Some? ==> Bins[Rank(r.value)] < score <= Bins[Rank(r.value) + 1]
  {
    if score <= 0 || score > 100 then None
    else if score <= 40 then Some(Bas)
    else if score <= 60 then Some(Moyen)
    else if score <= 80 then Some(Bon)
    else Some(Eleve)
  }

  /** A band is determined by its interval: any score inside band `n`'s
      interval is put in band `n`. */
  lemma NiveauOfInterval(score: int, n: Niveau)
    requires Bins[Rank(n)] < score <= Bins[Rank(n) + 1]
    ensures NiveauSalaire(score) == Some(n)
  {
  }

  /** The bands are closed on the right: each edge belongs to the band
      below it. */
  lemma NiveauEdges()
    ensures NiveauSalaire(40) == Some(Bas) && NiveauSalaire(41) == Some(Moyen)
    ensures NiveauSalaire(60) == Some(Moyen) && NiveauSalaire(61) == Some(Bon)
    ensures NiveauSalaire(80) == Some(Bon) && NiveauSalaire(81) == Some(Eleve)
    ensures NiveauSalaire(100) == Some(Eleve) && NiveauSalaire(0) == None && NiveauSalaire(101) == None
  {
  }

  /** A higher score never falls in a lower band. */
  lemma NiveauMonotone(a: int, b: int)
    requires 0 < a <= b <= 100
    ensures Rank(NiveauSalaire(a).value) <= Rank(NiveauSalaire(b).value)
  {
  }

  /** Every salary score gets a band, and "Bas" only at the floor of 40. */
  lemma SalaryHasBand(contrat: string, domaine: string, titre: string)
    ensures NiveauSalaire(EstimerSalaire(contrat, domaine, titre)).Some?
    ensures NiveauSalaire(EstimerSalaire(contrat, domaine, titre)) == Some(Bas) <==>
      EstimerSalaire(contrat, domaine, titre) == 40
  {
  }

  // ---------------------------------------------------------------------
  // Popularity (`score_popularite`)
  // ---------------------------------------------------------------------

  /** Points per domain; domains outside the table get `DefaultPopularity`. */
  const PopularityTable: map<string, int> := map[
    "Informatique" := 30, "Santé" := 25, "Commerce" := 15, "Logistique" := 10,
    "Administration" := 10, "Industrie" := 15, "Restauration" := 5, Autre := 5,
    "BTP" := 15, "Énergie / Technique" := 20, "Finance / Assurance" := 20,
    "Management" := 15, "Qualité / QHSE" := 10]

  const DefaultPopularity: int := 5

  /** `.map(table).fillna(5)`. */
  function DomainPopularity(domaine: string): (p: int)
    ensures DefaultPopularity <= p <= 30
    ensures domaine !in PopularityTable ==> p == DefaultPopularity
    ensures domaine in PopularityTable ==> p == PopularityTable[domaine]
  {
    if domaine in PopularityTable then PopularityTable[domaine] else DefaultPopularity
  }

  /** The bonus of each of the thirteen named domains. */
  lemma DomainPopularityTable()
    ensures DomainPopularity("Informatique") == 30 && DomainPopularity("Santé") == 25
    ensures DomainPopularity("Commerce") == 15 && DomainPopularity("Logistique") == 10
    ensures DomainPopularity("Administration") == 10 && DomainPopularity("Industrie") == 15
    ensures DomainPopularity("Restauration") == 5 && DomainPopularity(Autre) == 5
    ensures DomainPopularity("BTP") == 15 && DomainPopularity("Énergie / Technique") == 20
    ensures DomainPopularity("Finance / Assurance") == 20 && DomainPopularity("Management") == 15
    ensures DomainPopularity("Qualité / QHSE") == 10
  {
  }

  /** Every tag the tagger produces has its own entry; the default never
      applies to a tagged row. */
  lemma TagsHavePopularity()
    ensures forall t :: t in Tags ==> t in PopularityTable
  {
  }

  /** The score before normalisation: the title's share of the rows in
      percent, 30 for a predicted sought-after job, and the domain points. */
  function RawPopularity(count: nat, total: nat, pred: int, points: int): (r: real)
    requires 0 < total
    ensures 0 <= pred <= 1 && count <= total && DefaultPopularity <= points <= 30 ==> 5.0 <= r <= 160.0
    ensures r * total as real == (100 * count + (30 * pred + points) * total) as real
  {
    ShareBounds(count, total);
    ShareScaled(count, total);
    Share(count, total) * 100.0 + (pred * 30) as real + points as real
  }

  /** The share times the row count is the title's count. */
  lemma ShareScaled(count: nat, total: nat)
    requires 0 < total
    ensures Share(count, total) * total as real == count as real
  {
  }

  /** A predicted sought-after job adds exactly 30, and the domain bonus adds
      exactly its points. */
  lemma RawPopularityParts(count: nat, total: nat, points: int)
    requires 0 < total
    ensures RawPopularity(count, total, 1, points) == RawPopularity(count, total, 0, points) + 30.0
    ensures RawPopularity(count, total, 0, points) == RawPopularity(count, total, 0, 0) + points as real
  {
  }

  /** The title's share of the rows, `count / total`. */
  function Share(count: nat, total: nat): real
    requires 0 < total
  {
    count as real / total as real
  }

  lemma ShareBounds(count: nat, total: nat)
    requires 0 < total
    ensures 0.0 <= Share(count, total)
    ensures count <= total ==> Share(count, total) <= 1.0
  {
  }

  function MinOf(xs: seq<real>): (m: real)
    requires xs != []
    ensures m in xs
    ensures forall i :: 0 <= i < |xs| ==> m <= xs[i]
  {
    if |xs| == 1 then xs[0]
    else
      var rest := MinOf(xs[1..]);
      assert forall i :: 1 <= i < |xs| ==> xs[i] == xs[1..][i - 1];
      if xs[0] <= rest then xs[0] else rest
  }

  function MaxOf(xs: seq<real>): (m: real)
    requires xs != []
    ensures m in xs
    ensures forall i :: 0 <= i < |xs| ==> xs[i] <= m
  {
    if |xs| == 1 then xs[0]
    else
      var rest := MaxOf(xs[1..]);
      assert forall i :: 1 <= i < |xs| ==> xs[i] == xs[1..][i - 1];
      if rest <= xs[0] then xs[0] else rest
  }

  /** `(x - min) / (max - min) * 100` on one value. */
  function Rescale(x: real, lo: real, hi: real): real
    requires lo < hi
  {
    (x - lo) / (hi - lo) * 100.0
  }

  /** Rescaling maps the range onto 0..100 and keeps the order both ways. */
  lemma RescaleFacts(x: real, y: real, lo: real, hi: real)
    requires lo < hi
    ensures lo <= x <= hi ==> 0.0 <= Rescale(x, lo, hi) <= 100.0
    ensures Rescale(lo, lo, hi) == 0.0 && Rescale(hi, lo, hi) == 100.0
    ensures x <= y <==> Rescale(x, lo, hi) <= Rescale(y, lo, hi)
  {
    var d := hi - lo;
    assert (x - lo) / d * 100.0 - (y - lo) / d * 100.0 == (x - y) / d * 100.0;
  }

  /** Min-max normalisation of a column; when all values are equal every
      result is NaN (`None`), as `0 / 0` gives in pandas. */
  function Normalize(xs: seq<real>): (ys: seq<Option<real>>)
    ensures |ys| == |xs|
    ensures forall i :: 0 <= i < |xs| ==> (ys[i].Some? <==> MinOf(xs) < MaxOf(xs))
    ensures forall i :: 0 <= i < |xs| && ys[i].Some? ==> 0.0 <= ys[i].value <= 100.0
    ensures forall i :: 0 <= i < |xs| && ys[i].Some? ==>
      ys[i].value == (xs[i] - MinOf(xs)) / (MaxOf(xs) - MinOf(xs)) * 100.0
  {
    if xs == [] then []
    else
      var lo := MinOf(xs);
      var hi := MaxOf(xs);
      var ys := seq(|xs|, i requires 0 <= i < |xs| =>
        if lo < hi then Some(Rescale(xs[i], lo, hi)) else None);
      assert forall i :: 0 <= i < |xs| && lo < hi ==> 0.0 <= Rescale(xs[i], lo, hi) <= 100.0 by {
        forall i | 0 <= i < |xs| && lo < hi
          ensures 0.0 <= Rescale(xs[i], lo, hi) <= 100.0
        {
          RescaleFacts(xs[i], xs[i], lo, hi);
        }
      }
      ys
  }

  /** Normalisation keeps the order of the values, both ways, and sends the
      smallest value to 0 and the largest to 100. */
  lemma NormalizeOrder(xs: seq<real>, i: nat, j: nat)
    requires i < |xs| && j < |xs| && MinOf(xs) < MaxOf(xs)
    ensures xs[i] <= xs[j] <==> Normalize(xs)[i].value <= Normalize(xs)[j].value
    ensures xs[i] == MinOf(xs) ==> Normalize(xs)[i].value == 0.0
    ensures xs[i] == MaxOf(xs) ==> Normalize(xs)[i].value == 100.0
  {
    RescaleFacts(xs[i], xs[j], MinOf(xs), MaxOf(xs));
  }

  /** The popularity column: the raw score of every row, where a title's
      count is its number of rows (`groupby("Titre").transform("count")`),
      min-max normalised over the table. */
  function Popularite(titles: seq<string>, preds: seq<int>, domaines: seq<string>): (ys: seq<Option<real>>)
    requires |preds| == |titles| && |domaines| == |titles|
    ensures |ys| == |titles|
    ensures forall i :: 0 <= i < |titles| && ys[i].Some? ==> 0.0 <= ys[i].value <= 100.0
    ensures var raw := RawPopularities(TitleCounts(titles), preds, domaines);
      forall i :: 0 <= i < |titles| ==>
        && (ys[i].Some? <==> MinOf(raw) < MaxOf(raw))
        && (ys[i].Some? && raw[i] == MinOf(raw) ==> ys[i].value == 0.0)
        && (ys[i].Some? && raw[i] == MaxOf(raw) ==> ys[i].value == 100.0)
  {
    var raw := RawPopularities(TitleCounts(titles), preds, domaines);
    forall i | 0 <= i < |titles| && MinOf(raw) < MaxOf(raw)
      ensures raw[i] == MinOf(raw) ==> Normalize(raw)[i].value == 0.0
      ensures raw[i] == MaxOf(raw) ==> Normalize(raw)[i].value == 100.0
    {
      NormalizeOrder(raw, i, i);
    }
    Normalize(raw)
  }

  /** `groupby("Titre")["Titre"].transform("count")`: each row's title
      count, at least 1 since the row itself has that title. */
  function TitleCounts(titles: seq<string>): (counts: seq<nat>)
    ensures |counts| == |titles|
    ensures forall i :: 0 <= i < |titles| ==> counts[i] == Count(titles, titles[i])
    ensures forall i :: 0 <= i < |titles| ==> 1 <= counts[i] <= |titles|
  {
    seq(|titles|, i requires 0 <= i < |titles| => Count(titles, titles[i]))
  }

  function RawPopularities(counts: seq<nat>, preds: seq<int>, domaines: seq<string>): (raw: seq<real>)
    requires |preds| == |counts| && |domaines| == |counts|
    ensures |raw| == |counts|
    ensures forall i :: 0 <= i < |counts| ==>
      raw[i] == RawPopularity(counts[i], |counts|, preds[i], DomainPopularity(domaines[i]))
  {
    seq(|counts|, i requires 0 <= i < |counts| =>
      RawPopularity(counts[i], |counts|, preds[i], DomainPopularity(domaines[i])))
  }

  /** The raw score grows with the title's count. */
  lemma RawPopularityMono(ci: nat, cj: nat, total: nat, pred: int, points: int)
    requires 0 < total && ci <= cj
    ensures RawPopularity(ci, total, pred, points) <= RawPopularity(cj, total, pred, points)
  {
    var n := total as real;
    assert Share(ci, total) <= Share(cj, total) by {
      assert ci as real / n <= cj as real / n;
    }
  }

  lemma RawOrder(counts: seq<nat>, preds: seq<int>, domaines: seq<string>, i: nat, j: nat)
    requires |preds| == |counts| && |domaines| == |counts|
    requires i < |counts| && j < |counts|
    requires preds[i] == preds[j] && domaines[i] == domaines[j]
    requires counts[i] <= counts[j]
    ensures RawPopularities(counts, preds, domaines)[i] <= RawPopularities(counts, preds, domaines)[j]
  {
    RawPopularityMono(counts[i], counts[j], |counts|, preds[i], DomainPopularity(domaines[i]));
  }

  /** Of two rows with the same prediction and domain, the one with the more
      frequent title is at least as popular. */
  lemma MoreFrequentMorePopular(titles: seq<string>, preds: seq<int>, domaines: seq<string>, i: nat, j: nat)
    requires |preds| == |titles| && |domaines| == |titles|
    requires i < |titles| && j < |titles|
    requires preds[i] == preds[j] && domaines[i] == domaines[j]
    requires Count(titles, titles[i]) <= Count(titles, titles[j])
    requires Popularite(titles, preds, domaines)[i].Some?
    ensures Popularite(titles, preds, domaines)[i].value <= Popularite(titles, preds, domaines)[j].value
  {
    var counts := TitleCounts(titles);
    var raw := RawPopularities(counts, preds, domaines);
    RawOrder(counts, preds, domaines, i, j);
    NormalizeOrder(raw, i, j);
  }

  // ---------------------------------------------------------------------
  // The enriched table
  // ---------------------------------------------------------------------

  /** A scored row: the cleaned row, its cluster, and the added columns. */
  datatype ScoredOffer = ScoredOffer(
    offer: CleanOffer,
    cluster: nat,
    texteMl: string,
    metierTresDemande: nat,
    predTresDemande: int,
    scoreSalaire: int,
    niveauSalaire: Option<Niveau>,
    scorePopularite: Option<real>)

  function Titles(rows: seq<CleanOffer>): (ts: seq<string>)
    ensures |ts| == |rows|
    ensures forall i :: 0 <= i < |rows| ==> ts[i] == rows[i].titre
  {
    seq(|rows|, i requires 0 <= i < |rows| => rows[i].titre)
  }

  function Domaines(rows: seq<CleanOffer>): (ds: seq<string>)
    ensures |ds| == |rows|
    ensures forall i :: 0 <= i < |rows| ==> ds[i] == rows[i].domaine
  {
    seq(|rows|, i requires 0 <= i < |rows| => rows[i].domaine)
  }

  /** The added columns of one row, given the table's titles, the row's
      cluster, prediction and popularity. */
  function ScoreRow(titles: seq<string>, o: CleanOffer, cluster: nat, pred: int,
                    popularite: Option<real>): (r: ScoredOffer)
    ensures r.offer == o && r.cluster == cluster && r.predTresDemande == pred
    ensures r.scorePopularite == popularite
    ensures r.metierTresDemande == MetierTresDemande(titles, o.titre)
    ensures IsLower(r.texteMl) && r.metierTresDemande <= 1
    ensures 40 <= r.scoreSalaire <= 100 && r.niveauSalaire.Some?
    ensures r.scoreSalaire == EstimerSalaire(o.contratPropre, o.domaine, o.titre)
    ensures r.niveauSalaire == NiveauSalaire(r.scoreSalaire)
    ensures r.texteMl == NettoyerTexte(o.texteComplet)
  {
    var salaire := EstimerSalaire(o.contratPropre, o.domaine, o.titre);
    SalaryHasBand(o.contratPropre, o.domaine, o.titre);
    ScoredOffer(o, cluster, NettoyerTexte(o.texteComplet),
                MetierTresDemande(titles, o.titre), pred,
                salaire, NiveauSalaire(salaire), popularite)
  }

  /** The whole scoring stage: row `i` is scored against the table's
      titles, with its own cluster number and prediction (both inputs, one
      per row) and its entry of the popularity column. */
  function Score(rows: seq<CleanOffer>, clusters: seq<nat>, preds: seq<int>): (out: seq<ScoredOffer>)
    requires |clusters| == |rows| && |preds| == |rows|
    ensures |out| == |rows|
    ensures forall i :: 0 <= i < |rows| ==>
      out[i] == ScoreRow(Titles(rows), rows[i], clusters[i], preds[i],
                         Popularite(Titles(rows), preds, Domaines(rows))[i])
  {
    var titles := Titles(rows);
    var pop := Popularite(titles, preds, Domaines(rows));
    seq(|rows|, i requires 0 <= i < |rows| => ScoreRow(titles, rows[i], clusters[i], preds[i], pop[i]))
  }

  /** Scoring keeps every row, in order, with its cluster and prediction. */
  lemma ScoreKeepsRows(rows: seq<CleanOffer>, clusters: seq<nat>, preds: seq<int>)
    requires |clusters| == |rows| && |preds| == |rows|
    ensures var out := Score(rows, clusters, preds);
      |out| == |rows| &&
      forall i :: 0 <= i < |rows| ==>
        out[i].offer == rows[i] && out[i].cluster == clusters[i] && out[i].predTresDemande == preds[i]
  {
  }

  /** Every scored row has lower-case classifier text, a 0/1 label, and a
      salary score in 40..100 with a band. */
  lemma ScoreBounds(rows: seq<CleanOffer>, clusters: seq<nat>, preds: seq<int>, i: nat)
    requires |clusters| == |rows| && |preds| == |rows| && i < |rows|
    ensures var r := Score(rows, clusters, preds)[i];
      && IsLower(r.texteMl) && r.metierTresDemande <= 1
      && 40 <= r.scoreSalaire <= 100 && r.niveauSalaire.Some?
  {
  }

  /** A scored row's popularity lies within 0..100 unless it is NaN. */
  lemma ScorePopularityBounds(rows: seq<CleanOffer>, clusters: seq<nat>, preds: seq<int>, i: nat)
    requires |clusters| == |rows| && |preds| == |rows| && i < |rows|
    requires Score(rows, clusters, preds)[i].scorePopularite.Some?
    ensures 0.0 <= Score(rows, clusters, preds)[i].scorePopularite.value <= 100.0
  {
    var pop := Popularite(Titles(rows), preds, Domaines(rows));
    assert Score(rows, clusters, preds)[i].scorePopularite == pop[i];
  }

  /** Rows with the same title get the same label. */
  lemma ScoreSameTitleSameLabel(rows: seq<CleanOffer>, clusters: seq<nat>, preds: seq<int>, i: nat, j: nat)
    requires |clusters| == |rows| && |preds| == |rows|
    requires i < |rows| && j < |rows| && rows[i].titre == rows[j].titre
    ensures Score(rows, clusters, preds)[i].metierTresDemande == Score(rows, clusters, preds)[j].metierTresDemande
  {
  }
}
