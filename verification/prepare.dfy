/** The cleaning stage of the pipeline (`prepare_data.py`). Every scraped row
    is normalised field by field, no row is ever dropped, and the derived
    columns `Ville_propre`, `Departement`, `Contrat_propre`,
    `Domaine_metier` and `texte_complet` are added. */
module PrepareData {
  import opened Wrappers
  import opened Text
  import opened Domain
  import opened Seqs

  /** A scraped row: every cell may be missing (pandas NaN). */
  datatype RawOffer = RawOffer(
    titre: Option<string>,
    entreprise: Option<string>,
    ville: Option<string>,
    contrat: Option<string>,
    date: Option<string>)

  /** A cleaned row: the five cleaned source columns and the derived ones. */
  datatype CleanOffer = CleanOffer(
    titre: string,
    entreprise: string,
    ville: string,
    contrat: string,
    date: string,
    villePropre: string,
    departement: nat,
    contratPropre: string,
    domaine: string,
    texteComplet: string)

  // ---------------------------------------------------------------------
  // Cells
  // ---------------------------------------------------------------------

  /** What `astype(str)` makes of a missing cell. */
  const NanText: string := "nan"

  /** The texts `.replace(["", "nan", "NaN"], sentinel)` treats as missing. */
  const MissingMarks: set<string> := {"", "nan", "NaN"}

  const TitreSentinel: string := "Non spécifié"
  const EntrepriseSentinel: string := "Entreprise non communiquée"
  const DateSentinel: string := "Date inconnue"
  const VilleSentinel: string := "Non spécifié"

  lemma NanTextClean()
    ensures CleanSpaces(NanText) == NanText
  {
    StripTrimmed(NanText);
    CollapseCollapsed(NanText);
  }

  /** `.astype(str).str.strip().str.replace(r"\s+", " ", regex=True)` on one
      cell: a missing cell reads "nan", and otherwise only whitespace
      changes. */
  function CellText(cell: Option<string>): (r: string)
    ensures Trimmed(r) && Collapsed(r)
    ensures cell.None? ==> r == NanText
    ensures cell.Some? ==> Squeeze(r) == Squeeze(cell.value)
    ensures cell.Some? ==> r == JoinBySpace(Words(cell.value))
  {
    NanTextClean();
    CleanSpaces(cell.GetOr(NanText))
  }

  /** A cell that is already clean reads back unchanged. */
  lemma CellTextOfClean(s: string)
    requires Trimmed(s) && Collapsed(s)
    ensures CellText(Some(s)) == s
  {
    StripTrimmed(s);
    CollapseCollapsed(s);
  }

  /** Cleaning a cleaned cell changes nothing. */
  lemma CellTextIdempotent(cell: Option<string>)
    ensures CellText(Some(CellText(cell))) == CellText(cell)
  {
    CellTextOfClean(CellText(cell));
  }

  /** A sentinel the cleaning may substitute for a missing value. */
  predicate IsSentinel(sentinel: string) {
    sentinel !in MissingMarks && Trimmed(sentinel) && Collapsed(sentinel)
  }

  /** A text column with missing values replaced by a sentinel
      (`Titre`, `Entreprise`, `Date`): the result is never a missing mark,
      and it is either the sentinel or the cell's own text. */
  function CleanField(cell: Option<string>, sentinel: string): (r: string)
    ensures sentinel !in MissingMarks ==> r !in MissingMarks
    ensures IsSentinel(sentinel) ==> Trimmed(r) && Collapsed(r)
    ensures cell.None? ==> r == sentinel
    ensures r == sentinel <==> CellText(cell) in MissingMarks || CellText(cell) == sentinel
    ensures r == sentinel || Squeeze(r) == Squeeze(cell.GetOr(NanText))
  {
    var v := CellText(cell);
    if v in MissingMarks then sentinel else v
  }

  /** A present cell whose text is not a missing mark keeps its cleaned text. */
  lemma CleanFieldKeeps(cell: Option<string>, sentinel: string)
    requires CellText(cell) !in MissingMarks
    ensures CleanField(cell, sentinel) == CellText(cell)
  {
  }

  /** Cleaning a cleaned field again changes nothing. */
  lemma CleanFieldIdempotent(cell: Option<string>, sentinel: string)
    requires IsSentinel(sentinel)
    ensures CleanField(Some(CleanField(cell, sentinel)), sentinel) == CleanField(cell, sentinel)
  {
    CellTextOfClean(CleanField(cell, sentinel));
  }

  /** The words the sentinels are made of. */
  lemma SentinelWords()
    ensures Word("Non") && Word("spécifié")
    ensures Word("Entreprise") && Word("non") && Word("communiquée")
    ensures Word("Date") && Word("inconnue")
  {
  }

  lemma TitreSentinelValid(s: string)
    requires s == TitreSentinel
    ensures IsSentinel(s)
  {
    SentinelWords();
    JoinWords("Non", "spécifié");
    assert s == "Non" + " " + "spécifié";
  }

  lemma EntrepriseSentinelValid(s: string)
    requires s == EntrepriseSentinel
    ensures IsSentinel(s)
  {
    SentinelWords();
    var head := "Entreprise" + " " + "non";
    JoinWords("Entreprise", "non");
    JoinWords(head, "communiquée");
    assert s == head + " " + "communiquée";
  }

  lemma DateSentinelValid(s: string)
    requires s == DateSentinel
    ensures IsSentinel(s)
  {
    SentinelWords();
    JoinWords("Date", "inconnue");
    assert s == "Date" + " " + "inconnue";
  }

  // ---------------------------------------------------------------------
  // Location: r"^(?P<ville>.+?)\s*-\s*(?P<departement>\d+)$"
  // ---------------------------------------------------------------------

  /** The dash of `\s*-\s*` sits at `p` and everything else is whitespace. */
  predicate DashAt(m: string, p: int) {
    && 0 <= p < |m|
    && m[p] == '-'
    && forall q :: 0 <= q < |m| && q != p ==> IsSpace(m[q])
  }

  /** `m` matches `\s*-\s*`. */
  ghost predicate IsDashSep(m: string) {
    exists p :: DashAt(m, p)
  }

  /** The last `d` characters are the department digits and the rest is
      `\s*-\s*`. */
  ghost predicate DeptSplitAt(r: string, d: int) {
    && 0 < d <= |r|
    && AllDigits(r[|r| - d..])
    && IsDashSep(r[..|r| - d])
  }

  /** `r` matches `\s*-\s*\d+$`. */
  ghost predicate IsDeptTail(r: string) {
    exists d :: DeptSplitAt(r, d)
  }

  /** The length of the run of digits that ends `r`. */
  function TrailingDigits(r: string): (d: nat)
    ensures d <= |r| && AllDigits(r[|r| - d..])
    ensures d < |r| ==> !IsDigit(r[|r| - d - 1])
  {
    if r == [] || !IsDigit(r[|r| - 1]) then 0
    else
      var front := r[..|r| - 1];
      var d := TrailingDigits(front);
      assert r[|r| - (d + 1)..] == front[|front| - d..] + [r[|r| - 1]];
      assert d + 1 < |r| ==> r[|r| - d - 2] == front[|front| - d - 1];
      d + 1
  }

  /** The executable test for a department tail: strip the trailing digits,
      then what is left must strip down to a lone dash. */
  predicate MatchesDeptTail(r: string) {
    var d := TrailingDigits(r);
    d > 0 && Strip(r[..|r| - d]) == "-"
  }

  /** A string strips down to a lone dash exactly when it is `\s*-\s*`. */
  lemma StripDash(m: string)
    ensures Strip(m) == "-" <==> IsDashSep(m)
  {
    var i := LeadingSpaces(m);
    var t := Strip(m);
    if t == "-" {
      assert DashAt(m, i) by {
        forall q | 0 <= q < |m| && q != i
          ensures IsSpace(m[q])
        {
          if q < i {
            assert m[q] == m[..i][q];
          } else {
            assert m[q] == m[i + 1..][q - i - 1];
          }
        }
      }
    }
    if p :| DashAt(m, p) {
      assert AllSpaces(m[..i]) && AllSpaces(m[i + |t|..]);
      assert t == m[i..i + |t|];
      assert i == p;
      assert t == "-";
    }
  }

  /** A string the executable test accepts matches the pattern. */
  lemma DeptTailSound(r: string)
    requires MatchesDeptTail(r)
    ensures IsDeptTail(r)
  {
    var d := TrailingDigits(r);
    StripDash(r[..|r| - d]);
    assert DeptSplitAt(r, d);
  }

  /** A string matching the pattern passes the executable test: its digit
      part is exactly the final digit run, since the character before it
      belongs to `\s*-\s*`. */
  lemma DeptTailComplete(r: string)
    requires IsDeptTail(r)
    ensures MatchesDeptTail(r)
  {
    var d' :| DeptSplitAt(r, d');
    var m := r[..|r| - d'];
    var p :| DashAt(m, p);
    var d := TrailingDigits(r);
    assert !IsDigit(r[|r| - d' - 1]) by {
      assert r[|r| - d' - 1] == m[|m| - 1];
    }
    assert d == d';
    StripDash(m);
  }

  /** The executable test agrees with the pattern. */
  lemma DeptTailIff(r: string)
    ensures MatchesDeptTail(r) <==> IsDeptTail(r)
  {
    if MatchesDeptTail(r) {
      DeptTailSound(r);
    }
    if IsDeptTail(r) {
      DeptTailComplete(r);
    }
  }

  /** The first position `k >= start` where a department tail begins. */
  function FirstSplit(s: string, start: nat): (r: Option<nat>)
    requires 1 <= start
    ensures r.Some? ==> start <= r.value < |s| && IsDeptTail(s[r.value..])
    ensures forall j :: start <= j < |s| && (r.None? || j < r.value) ==> !IsDeptTail(s[j..])
    decreases |s| - start
  {
    if start >= |s| then None
    else
      DeptTailIff(s[start..]);
      if MatchesDeptTail(s[start..]) then Some(start) else FirstSplit(s, start + 1)
  }

  /** `Ville_propre` and `Departement` as read from one location text. */
  datatype Location = Location(villePropre: string, departement: nat)

  /** `k` is where the lazy `(.+?)` stops: the shortest non-empty name
      followed by a department tail. */
  ghost predicate IsFirstSplit(v: string, k: int) {
    && 1 <= k < |v|
    && IsDeptTail(v[k..])
    && forall j :: 1 <= j < k ==> !IsDeptTail(v[j..])
  }

  /** `str.extract` of the location pattern, then `.str.strip()` on the name,
      `pd.to_numeric` on the digits and `fillna(0)`: a match yields the
      shortest name and the final digit run, no match keeps the whole text
      with department 0. */
  function SplitLocation(v: string): (loc: Location)
    ensures Trimmed(loc.villePropre)
    ensures forall k :: IsFirstSplit(v, k) ==>
      loc == Location(Strip(v[..k]), ParseDecimal(v[|v| - TrailingDigits(v)..]))
    ensures (forall k :: 1 <= k < |v| ==> !IsDeptTail(v[k..])) ==> loc == Location(Strip(v), 0)
    ensures Trimmed(v) ==> (loc.villePropre == [] <==> v == [])
  {
    FirstSplitSpec(v);
    match FirstSplit(v, 1)
    case None => Location(Strip(v), 0)
    case Some(k) =>
      SplitNameNonEmpty(v, k);
      Location(Strip(v[..k]), ParseDecimal(v[|v| - TrailingDigits(v)..]))
  }

  /** The search finds exactly the split the lazy pattern stops at. */
  lemma FirstSplitSpec(v: string)
    ensures forall k :: IsFirstSplit(v, k) <==> FirstSplit(v, 1) == Some(k)
  {
  }

  /** The name before a split of a trimmed text keeps a character. */
  lemma SplitNameNonEmpty(v: string, k: nat)
    requires 1 <= k < |v|
    ensures Trimmed(v) ==> Strip(v[..k]) != []
  {
    StripEmpty(v[..k]);
    assert v[0] == v[..k][0];
  }

  /** A text with no dash holds no department. */
  lemma NoDashNoDepartement(v: string)
    requires '-' !in v
    ensures SplitLocation(v) == Location(Strip(v), 0)
  {
    forall k | 1 <= k < |v|
      ensures !IsDeptTail(v[k..])
    {
    }
  }

  /** `name + " - " + digits`, for a name that does not end in whitespace,
      splits back into the stripped name and the digits' value; leading
      zeros are read as `pd.to_numeric` reads them. */
  lemma LocationSplitDigits(name: string, digits: string)
    requires |name| > 0 && !IsSpace(name[|name| - 1])
    requires |digits| > 0 && AllDigits(digits)
    ensures SplitLocation(name + " - " + digits) == Location(Strip(name), ParseDecimal(digits))
  {
    var v := name + " - " + digits;
    var k := |name|;
    NameThenTail(name, digits);
    assert IsFirstSplit(v, k);
    TrailingDigitsOf(v, digits);
  }

  /** In `name + " - " + digits` the department tail starts right after
      the name, and not earlier. */
  lemma NameThenTail(name: string, digits: string)
    requires |name| > 0 && !IsSpace(name[|name| - 1])
    requires |digits| > 0 && AllDigits(digits)
    ensures var v := name + " - " + digits;
      && v[..|name|] == name
      && v[|v| - |digits|..] == digits
      && IsDeptTail(v[|name|..])
      && forall j :: 1 <= j < |name| ==> !IsDeptTail(v[j..])
  {
    var tail := " - " + digits;
    var v := name + " - " + digits;
    assert v == name + tail;
    var k := |name|;
    assert v[..k] == name;
    assert v[k..] == tail;
    DashDigitsTail(digits);
    forall j | 1 <= j < k
      ensures !IsDeptTail(v[j..])
    {
      NoEarlierSplit(v, name, digits, j);
    }
  }

  /** `" - " + digits` is a department tail whose digit run is `digits`. */
  lemma DashDigitsTail(digits: string)
    requires |digits| > 0 && AllDigits(digits)
    ensures DeptSplitAt(" - " + digits, |digits|)
  {
    var tail := " - " + digits;
    assert tail[..3] == " - ";
    assert DashAt(" - ", 1);
    assert IsDashSep(" - ");
    assert tail[3..] == digits;
  }

  /** `name + " - " + str(n)` splits back into the stripped name and `n`. */
  lemma LocationRoundTrip(name: string, n: nat)
    requires |name| > 0 && !IsSpace(name[|name| - 1])
    ensures SplitLocation(name + " - " + ShowNat(n)) == Location(Strip(name), n)
  {
    LocationSplitDigits(name, ShowNat(n));
    ParseShowNat(n);
  }

  /** A zero-padded department reads as its number: "Bourg - 01" is in
      department 1. */
  lemma LocationLeadingZero(name: string, n: nat)
    requires |name| > 0 && !IsSpace(name[|name| - 1])
    ensures SplitLocation(name + " - " + ("0" + ShowNat(n))) == Location(Strip(name), n)
  {
    LocationSplitDigits(name, "0" + ShowNat(n));
    ParseLeadingZero(ShowNat(n));
    ParseShowNat(n);
  }

  /** Before the end of the name there is no department tail: the tail would
      have to hold both the name's last character and the separator dash. */
  lemma NoEarlierSplit(v: string, name: string, digits: string, j: nat)
    requires |name| > 0 && !IsSpace(name[|name| - 1])
    requires AllDigits(digits)
    requires v == name + " - " + digits
    requires 1 <= j < |name|
    ensures !IsDeptTail(v[j..])
  {
    var r := v[j..];
    var last := |name| - 1 - j;
    var dash := |name| + 1 - j;
    assert r[last] == name[|name| - 1] && r[dash] == '-';
  }

  lemma TrailingDigitsOf(v: string, digits: string)
    requires AllDigits(digits) && |digits| < |v|
    requires v[|v| - |digits|..] == digits && !IsDigit(v[|v| - |digits| - 1])
    ensures TrailingDigits(v) == |digits|
  {
  }

  /** `Ville_propre` and `Departement` exactly as the code computes them: a
      missing cell reads "nan" and goes through the split unchanged. */
  function VilleAsWritten(cell: Option<string>): Location {
    SplitLocation(CellText(cell))
  }

  /** As written, a missing city comes out as the text "nan". */
  lemma MissingCityAsWritten()
    ensures VilleAsWritten(None).villePropre == NanText
  {
    assert CellText(None) == NanText;
    NoDashNoDepartement(NanText);
    StripTrimmed(NanText);
  }

  /** As written, a city cell holding only whitespace comes out as the empty
      text, and the corrected city gives the sentinel instead. */
  lemma BlankCityAsWritten(v: string)
    requires AllSpaces(v)
    ensures VilleAsWritten(Some(v)) == Location("", 0)
    ensures CleanVille(Some(v)) == Location(VilleSentinel, 0)
  {
    WordsOfSpaces(v);
    assert CellText(Some(v)) == "";
    NoDashNoDepartement("");
  }

  /** `Ville_propre` and `Departement` with a missing city replaced by the
      sentinel, as for the other text columns: the city is never empty nor a
      missing mark. */
  function CleanVille(cell: Option<string>): (loc: Location)
    ensures loc.villePropre != [] && Trimmed(loc.villePropre)
    ensures CellText(cell) in MissingMarks ==> loc == Location(VilleSentinel, 0)
    ensures CellText(cell) !in MissingMarks ==> loc == SplitLocation(CellText(cell))
  {
    var v := CellText(cell);
    if v in MissingMarks then
      TitreSentinelValid(VilleSentinel);
      Location(VilleSentinel, 0)
    else
      SplitLocation(v)
  }

  /** A missing city now reads as the sentinel. */
  lemma MissingCityCorrected()
    ensures CleanVille(None) == Location(VilleSentinel, 0)
  {
  }

  // ---------------------------------------------------------------------
  // Contract type
  // ---------------------------------------------------------------------

  const NonSpecifie: string := "NON_SPECIFIE"

  /** The upper-cased texts `.replace(["", "NAN", "NONE"], ...)` treats as
      missing. */
  const MissingContrat: set<string> := {"", "NAN", "NONE"}

  /** `.str.upper().str.replace(" ", "")` then the missing-value sentinel:
      the token is upper case, holds no space, is never a missing mark, and
      is either the sentinel or the input upper-cased with its spaces
      deleted. */
  function NormalizeContrat(c: string): (r: string)
    ensures r != [] && IsUpper(r) && ' ' !in r
    ensures r !in MissingContrat
    ensures Collapsed(c) ==> forall i :: 0 <= i < |r| ==> !IsSpace(r[i])
    ensures var u := Filter(Upper(c), NotPlainSpace);
      && (r == NonSpecifie <==> u in MissingContrat || u == NonSpecifie)
      && (r != NonSpecifie ==> r == u)
  {
    var u := ReplaceAll(Upper(c), " ", "");
    SpacesDeleted(c);
    DeleteSpacesIsFilter(Upper(c));
    if u in MissingContrat then
      NonSpecifieToken();
      NonSpecifie
    else
      u
  }

  /** Every character but the plain space. */
  function NotPlainSpace(ch: char): bool {
    ch != ' '
  }

  /** `str.replace(" ", "")` keeps exactly the characters that are not a
      plain space, in order. */
  lemma {:induction false} DeleteSpacesIsFilter(s: string)
    ensures ReplaceAll(s, " ", "") == Filter(s, NotPlainSpace)
  {
    if s != [] {
      DeleteSpacesIsFilter(s[1..]);
      if " " <= s {
        assert s[0] == ' ';
        assert s[|" "|..] == s[1..];
      } else {
        assert s[0] != ' ';
      }
    }
  }

  /** The sentinel is itself a valid token. */
  lemma NonSpecifieToken()
    ensures NonSpecifie != [] && IsUpper(NonSpecifie) && ' ' !in NonSpecifie
    ensures NonSpecifie !in MissingContrat
    ensures forall i :: 0 <= i < |NonSpecifie| ==> !IsSpace(NonSpecifie[i])
  {
  }

  /** Upper-casing then deleting the spaces leaves an upper-case text without
      spaces, and without any whitespace at all when the input had only
      single plain spaces. */
  lemma SpacesDeleted(c: string)
    ensures var u := ReplaceAll(Upper(c), " ", "");
      IsUpper(u) && ' ' !in u && (Collapsed(c) ==> forall i :: 0 <= i < |u| ==> !IsSpace(u[i]))
  {
    var u := ReplaceAll(Upper(c), " ", "");
    DeleteChar(Upper(c), ' ');
    SpacesDeletedUpper(c, u);
    if Collapsed(c) {
      SpacesDeletedNoSpace(c, u);
    }
  }

  lemma SpacesDeletedUpper(c: string, u: string)
    requires forall x :: x in u ==> x in Upper(c)
    ensures IsUpper(u)
  {
    forall i | 0 <= i < |u|
      ensures UpperChar(u[i]) == u[i]
    {
      assert u[i] in u;
      var j :| 0 <= j < |c| && Upper(c)[j] == u[i];
    }
  }

  lemma SpacesDeletedNoSpace(c: string, u: string)
    requires Collapsed(c) && ' ' !in u
    requires forall x :: x in u ==> x in Upper(c)
    ensures forall i :: 0 <= i < |u| ==> !IsSpace(u[i])
  {
    forall i | 0 <= i < |u|
      ensures !IsSpace(u[i])
    {
      assert u[i] in u;
      var j :| 0 <= j < |c| && Upper(c)[j] == u[i];
    }
  }

  /** Normalising a normalised token changes nothing. */
  lemma NormalizeContratIdempotent(c: string)
    ensures NormalizeContrat(NormalizeContrat(c)) == NormalizeContrat(c)
  {
    var r := NormalizeContrat(c);
    UpperOfUpper(r);
    ContainsChar(r, ' ');
    ReplaceAbsent(r, " ", "");
  }

  /** The token ignores the case the contract was written in. */
  lemma NormalizeContratIgnoresCase(c: string)
    ensures NormalizeContrat(Lower(c)) == NormalizeContrat(c)
  {
    UpperOfLower(c);
  }

  /** A missing contract cell reads "nan", hence "NAN", hence the sentinel. */
  lemma MissingContratBecomesSentinel()
    ensures NormalizeContrat(CellText(None)) == NonSpecifie
  {
    assert Upper(NanText) == "NAN";
    ContainsChar("NAN", ' ');
    ReplaceAbsent("NAN", " ", "");
  }

  /** A lower-case fixed-term contract becomes "CDD". */
  lemma ContratCdd()
    ensures NormalizeContrat("cdd") == "CDD"
  {
    assert Upper("cdd") == "CDD";
    ContainsChar("CDD", ' ');
    ReplaceAbsent("CDD", " ", "");
  }

  /** "None", in any case, is a missing contract. */
  lemma ContratNone()
    ensures NormalizeContrat("None") == NonSpecifie
  {
    assert Upper("None") == "NONE";
    ContainsChar("NONE", ' ');
    ReplaceAbsent("NONE", " ", "");
  }

  // ---------------------------------------------------------------------
  // texte_complet
  // ---------------------------------------------------------------------

  lemma SqueezeSpaced(a: string, b: string)
    ensures Squeeze(a + " " + b) == Squeeze(a) + Squeeze(b)
  {
    SqueezeAppend(a + " ", b);
    SqueezeAppend(a, " ");
  }

  /** The five fields joined by single spaces, then `.str.strip()`: no
      field's text is lost or reordered, only whitespace at the ends goes. */
  function TexteComplet(titre: string, entreprise: string, ville: string,
                        contrat: string, domaine: string): (r: string)
    ensures Trimmed(r)
    ensures Squeeze(r) ==
      Squeeze(titre) + Squeeze(entreprise) + Squeeze(ville) + Squeeze(contrat) + Squeeze(domaine)
  {
    var joined := titre + " " + entreprise + " " + ville + " " + contrat + " " + domaine;
    StripKeepsText(joined);
    SqueezeSpaced(titre, entreprise);
    SqueezeSpaced(titre + " " + entreprise, ville);
    SqueezeSpaced(titre + " " + entreprise + " " + ville, contrat);
    SqueezeSpaced(titre + " " + entreprise + " " + ville + " " + contrat, domaine);
    Strip(joined)
  }

  /** When every field is non-empty and trimmed, the strip is a no-op and
      the text is exactly the fields joined by single spaces. */
  lemma TexteCompletJoins(titre: string, entreprise: string, ville: string,
                          contrat: string, domaine: string)
    requires titre != [] && Trimmed(titre)
    requires domaine != [] && Trimmed(domaine)
    ensures TexteComplet(titre, entreprise, ville, contrat, domaine)
      == titre + " " + entreprise + " " + ville + " " + contrat + " " + domaine
  {
    var joined := titre + " " + entreprise + " " + ville + " " + contrat + " " + domaine;
    assert joined[0] == titre[0];
    assert joined[|joined| - 1] == domaine[|domaine| - 1];
    StripTrimmed(joined);
  }

  // ---------------------------------------------------------------------
  // Rows and the table
  // ---------------------------------------------------------------------

  /** Every tag is a non-empty trimmed text. */
  lemma TagsTrimmed(t: string)
    requires t in Tags
    ensures t != [] && Trimmed(t)
  {
  }

  /** The column invariants of a cleaned row. */
  predicate IsClean(o: CleanOffer) {
    && o.titre !in MissingMarks && Trimmed(o.titre) && Collapsed(o.titre)
    && o.entreprise !in MissingMarks && Trimmed(o.entreprise) && Collapsed(o.entreprise)
    && o.date !in MissingMarks && Trimmed(o.date) && Collapsed(o.date)
    && Trimmed(o.ville) && Collapsed(o.ville)
    && Trimmed(o.contrat) && Collapsed(o.contrat)
    && o.villePropre != [] && Trimmed(o.villePropre)
    && o.contratPropre !in MissingContrat && ' ' !in o.contratPropre && IsUpper(o.contratPropre)
    && o.domaine == ExtraireDomaine(o.titre)
    && o.texteComplet == o.titre + " " + o.entreprise + " " + o.villePropre + " "
                         + o.contratPropre + " " + o.domaine
  }

  /** The derived columns computed from the cleaned field texts. */
  function Assemble(titre: string, entreprise: string, date: string,
                    ville: string, contrat: string): CleanOffer
  {
    var loc := CleanVille(Some(ville));
    var contratPropre := NormalizeContrat(contrat);
    var domaine := ExtraireDomaine(titre);
    CleanOffer(titre, entreprise, ville, contrat, date, loc.villePropre, loc.departement,
               contratPropre, domaine,
               TexteComplet(titre, entreprise, loc.villePropre, contratPropre, domaine))
  }

  /** The cleaning of one row: each column is computed by its own cleaning
      step, the column invariants hold, and every missing cell is replaced
      by its column's sentinel. The city is the corrected one; it differs
      from the code as written only where the cleaned city text is a
      missing mark. */
  function PrepareRow(raw: RawOffer): (o: CleanOffer)
    ensures o.titre == CleanField(raw.titre, TitreSentinel)
    ensures o.entreprise == CleanField(raw.entreprise, EntrepriseSentinel)
    ensures o.date == CleanField(raw.date, DateSentinel)
    ensures o.ville == CellText(raw.ville) && o.contrat == CellText(raw.contrat)
    ensures Location(o.villePropre, o.departement) == CleanVille(raw.ville)
    ensures CellText(raw.ville) !in MissingMarks ==>
      Location(o.villePropre, o.departement) == VilleAsWritten(raw.ville)
    ensures o.contratPropre == NormalizeContrat(CellText(raw.contrat))
    ensures IsClean(o)
    ensures raw.titre.None? ==> o.titre == TitreSentinel
    ensures raw.entreprise.None? ==> o.entreprise == EntrepriseSentinel
    ensures raw.date.None? ==> o.date == DateSentinel
    ensures raw.ville.None? ==> o.villePropre == VilleSentinel && o.departement == 0
    ensures raw.contrat.None? ==> o.contratPropre == NonSpecifie
  {
    TitreSentinelValid(TitreSentinel);
    EntrepriseSentinelValid(EntrepriseSentinel);
    DateSentinelValid(DateSentinel);
    var titre := CleanField(raw.titre, TitreSentinel);
    var entreprise := CleanField(raw.entreprise, EntrepriseSentinel);
    var date := CleanField(raw.date, DateSentinel);
    var ville := CellText(raw.ville);
    var contrat := CellText(raw.contrat);
    CellTextIdempotent(raw.ville);
    MissingContratBecomesSentinel();
    TagsTrimmed(ExtraireDomaine(titre));
    var loc := CleanVille(Some(ville));
    TexteCompletJoins(titre, entreprise, loc.villePropre, NormalizeContrat(contrat), ExtraireDomaine(titre));
    Assemble(titre, entreprise, date, ville, contrat)
  }

  /** Reading a cleaned row back as raw input (the saved table's columns). */
  function Reread(o: CleanOffer): RawOffer {
    RawOffer(Some(o.titre), Some(o.entreprise), Some(o.ville), Some(o.contrat), Some(o.date))
  }

  /** Cleaning the cleaned table again changes nothing. */
  lemma PrepareRowIdempotent(raw: RawOffer)
    ensures PrepareRow(Reread(PrepareRow(raw))) == PrepareRow(raw)
  {
    TitreSentinelValid(TitreSentinel);
    EntrepriseSentinelValid(EntrepriseSentinel);
    DateSentinelValid(DateSentinel);
    CleanFieldIdempotent(raw.titre, TitreSentinel);
    CleanFieldIdempotent(raw.entreprise, EntrepriseSentinel);
    CleanFieldIdempotent(raw.date, DateSentinel);
    CellTextIdempotent(raw.ville);
    CellTextIdempotent(raw.contrat);
  }

  /** The whole table: one cleaned row per input row, in order; no row is
      dropped. */
  function PrepareTable(rows: seq<RawOffer>): (out: seq<CleanOffer>)
    ensures |out| == |rows|
    ensures forall i :: 0 <= i < |rows| ==> out[i] == PrepareRow(rows[i])
  {
    seq(|rows|, i requires 0 <= i < |rows| => PrepareRow(rows[i]))
  }

  /** Every row of the cleaned table satisfies the column invariants. */
  lemma PrepareTableClean(rows: seq<RawOffer>)
    ensures forall o :: o in PrepareTable(rows) ==> IsClean(o)
  {
  }
}
