/** The dashboard's data side (`app_dash.py`): the options of the three
    dropdowns and the row filter behind every chart. The layout and the
    figures are left out. */
module Dashboard {
  import opened Wrappers
  import opened Text
  import opened Seqs

  /** A row of the scored table as the dashboard reads it back: the text
      columns may be empty again (NaN), the cluster number and the
      prediction are integers. */
  datatype DashRow = DashRow(
    villePropre: Option<string>,
    contratPropre: Option<string>,
    cluster: nat,
    highDemand: int)

  // ---------------------------------------------------------------------
  // Dropdown options
  // ---------------------------------------------------------------------

  /** One dropdown entry: the text shown and the value selected. */
  datatype Choice<T> = Choice(text: string, value: T)

  /** `dropna()`: the present cells, in order. */
  function Present(cells: seq<Option<string>>): (vs: seq<string>)
    ensures forall v :: v in vs <==> Some(v) in cells
  {
    if cells == [] then []
    else
      var rest := Present(cells[1..]);
      assert cells == [cells[0]] + cells[1..];
      match cells[0]
      case None => rest
      case Some(v) => [v] + rest
  }

  /** `[{"label": v, "value": v} for v in sorted(column.dropna().unique())]`:
      one entry per distinct present value, in strictly increasing order,
      shown as the value itself. */
  function TextChoices(cells: seq<Option<string>>): (cs: seq<Choice<string>>)
    ensures forall i :: 0 <= i < |cs| ==> cs[i].text == cs[i].value
    ensures forall i, j :: 0 <= i < j < |cs| ==> StrLt(cs[i].value, cs[j].value)
    ensures forall i :: 0 <= i < |cs| ==> Some(cs[i].value) in cells
    ensures forall v :: Some(v) in cells ==> exists i :: 0 <= i < |cs| && cs[i].value == v
  {
    var vs := SortedUnique(Present(cells));
    var cs := seq(|vs|, i requires 0 <= i < |vs| => Choice(vs[i], vs[i]));
    assert forall v :: Some(v) in cells ==> exists i :: 0 <= i < |cs| && cs[i].value == v by {
      forall v | Some(v) in cells
        ensures exists i :: 0 <= i < |cs| && cs[i].value == v
      {
        assert v in vs;
        var i :| 0 <= i < |vs| && vs[i] == v;
        assert cs[i].value == v;
      }
    }
    cs
  }

  /** The options hold each value once. */
  lemma TextChoicesDistinct(cells: seq<Option<string>>)
    ensures var cs := TextChoices(cells);
      forall i, j :: 0 <= i < j < |cs| ==> cs[i].value != cs[j].value
  {
    var cs := TextChoices(cells);
    forall i, j | 0 <= i < j < |cs|
      ensures cs[i].value != cs[j].value
    {
      if cs[i].value == cs[j].value {
        StrLtIrreflexive(cs[i].value);
      }
    }
  }

  function VilleCells(rows: seq<DashRow>): (cells: seq<Option<string>>)
    ensures |cells| == |rows|
    ensures forall i :: 0 <= i < |rows| ==> cells[i] == rows[i].villePropre
  {
    seq(|rows|, i requires 0 <= i < |rows| => rows[i].villePropre)
  }

  function ContratCells(rows: seq<DashRow>): (cells: seq<Option<string>>)
    ensures |cells| == |rows|
    ensures forall i :: 0 <= i < |rows| ==> cells[i] == rows[i].contratPropre
  {
    seq(|rows|, i requires 0 <= i < |rows| => rows[i].contratPropre)
  }

  /** `villes_options`: every present city once, sorted. */
  function VillesOptions(rows: seq<DashRow>): (cs: seq<Choice<string>>)
    ensures forall i, j :: 0 <= i < j < |cs| ==> StrLt(cs[i].value, cs[j].value)
    ensures forall i :: 0 <= i < |cs| ==>
      cs[i].text == cs[i].value && exists k :: 0 <= k < |rows| && rows[k].villePropre == Some(cs[i].value)
    ensures forall k :: 0 <= k < |rows| && rows[k].villePropre.Some? ==>
      exists i :: 0 <= i < |cs| && cs[i].value == rows[k].villePropre.value
  {
    var cells := VilleCells(rows);
    var cs := TextChoices(cells);
    assert forall k :: 0 <= k < |rows| && rows[k].villePropre.Some? ==> Some(rows[k].villePropre.value) in cells by {
      forall k | 0 <= k < |rows| && rows[k].villePropre.Some?
        ensures Some(rows[k].villePropre.value) in cells
      {
        assert cells[k] == rows[k].villePropre;
      }
    }
    cs
  }

  /** `contrats_options`: every present contract token once, sorted. */
  function ContratsOptions(rows: seq<DashRow>): (cs: seq<Choice<string>>)
    ensures forall i, j :: 0 <= i < j < |cs| ==> StrLt(cs[i].value, cs[j].value)
    ensures forall i :: 0 <= i < |cs| ==>
      cs[i].text == cs[i].value && exists k :: 0 <= k < |rows| && rows[k].contratPropre == Some(cs[i].value)
    ensures forall k :: 0 <= k < |rows| && rows[k].contratPropre.Some? ==>
      exists i :: 0 <= i < |cs| && cs[i].value == rows[k].contratPropre.value
  {
    var cells := ContratCells(rows);
    var cs := TextChoices(cells);
    assert forall k :: 0 <= k < |rows| && rows[k].contratPropre.Some? ==> Some(rows[k].contratPropre.value) in cells by {
      forall k | 0 <= k < |rows| && rows[k].contratPropre.Some?
        ensures Some(rows[k].contratPropre.value) in cells
      {
        assert cells[k] == rows[k].contratPropre;
      }
    }
    cs
  }

  function Clusters(rows: seq<DashRow>): (cs: seq<int>)
    ensures |cs| == |rows|
    ensures forall i :: 0 <= i < |rows| ==> cs[i] == rows[i].cluster
  {
    seq(|rows|, i requires 0 <= i < |rows| => rows[i].cluster)
  }

  /** Some row belongs to cluster `c`. */
  predicate HasCluster(rows: seq<DashRow>, c: nat) {
    exists k :: 0 <= k < |rows| && rows[k].cluster == c
  }

  /** Some dropdown entry selects `v`. */
  predicate Offers<T(==)>(cs: seq<Choice<T>>, v: T) {
    exists i :: 0 <= i < |cs| && cs[i].value == v
  }

  /** The distinct cluster numbers, increasing. */
  function ClusterValues(rows: seq<DashRow>): (vs: seq<nat>)
    ensures forall i, j :: 0 <= i < j < |vs| ==> vs[i] < vs[j]
    ensures forall i :: 0 <= i < |vs| ==> HasCluster(rows, vs[i])
    ensures forall k :: 0 <= k < |rows| ==> rows[k].cluster in vs
  {
    var u := SortedUniqueInts(Clusters(rows));
    ClusterValuesFromRows(rows, u);
    var vs: seq<nat> := seq(|u|, i requires 0 <= i < |u| => u[i] as nat);
    assert vs == u;
    vs
  }

  lemma ClusterValuesFromRows(rows: seq<DashRow>, u: seq<int>)
    requires forall y :: y in u <==> y in Clusters(rows)
    ensures forall i :: 0 <= i < |u| ==> u[i] >= 0 && HasCluster(rows, u[i])
    ensures forall k :: 0 <= k < |rows| ==> rows[k].cluster in u
  {
    var cl := Clusters(rows);
    forall i | 0 <= i < |u|
      ensures u[i] >= 0 && HasCluster(rows, u[i])
    {
      assert u[i] in u;
      var k :| 0 <= k < |cl| && cl[k] == u[i];
      assert rows[k].cluster == u[i];
    }
    forall k | 0 <= k < |rows|
      ensures rows[k].cluster in u
    {
      assert cl[k] in cl;
    }
  }

  /** `clusters_options`: every cluster number once, increasing, shown as
      its decimal text, which reads back as the number; a cluster is offered
      exactly when some row belongs to it. */
  function ClustersOptions(rows: seq<DashRow>): (cs: seq<Choice<nat>>)
    ensures forall i, j :: 0 <= i < j < |cs| ==> cs[i].value < cs[j].value
    ensures forall i :: 0 <= i < |cs| ==>
      AllDigits(cs[i].text) && ParseDecimal(cs[i].text) == cs[i].value
    ensures forall i :: 0 <= i < |cs| ==> HasCluster(rows, cs[i].value)
    ensures forall k :: 0 <= k < |rows| ==> Offers(cs, rows[k].cluster)
  {
    var vs := ClusterValues(rows);
    var cs := seq(|vs|, i requires 0 <= i < |vs| => Choice(ShowNat(vs[i]), vs[i]));
    ClusterTexts(vs, cs);
    ClusterChoicesCover(rows, vs, cs);
    cs
  }

  lemma ClusterTexts(vs: seq<nat>, cs: seq<Choice<nat>>)
    requires |cs| == |vs| && forall i :: 0 <= i < |vs| ==> cs[i] == Choice(ShowNat(vs[i]), vs[i])
    ensures forall i :: 0 <= i < |cs| ==> AllDigits(cs[i].text) && ParseDecimal(cs[i].text) == cs[i].value
  {
    forall i | 0 <= i < |cs|
      ensures AllDigits(cs[i].text) && ParseDecimal(cs[i].text) == cs[i].value
    {
      ParseShowNat(vs[i]);
    }
  }

  lemma ClusterChoicesCover(rows: seq<DashRow>, vs: seq<nat>, cs: seq<Choice<nat>>)
    requires |cs| == |vs| && forall i :: 0 <= i < |vs| ==> cs[i].value == vs[i]
    requires forall k :: 0 <= k < |rows| ==> rows[k].cluster in vs
    ensures forall k :: 0 <= k < |rows| ==> Offers(cs, rows[k].cluster)
  {
    forall k | 0 <= k < |rows|
      ensures Offers(cs, rows[k].cluster)
    {
      var i :| 0 <= i < |vs| && vs[i] == rows[k].cluster;
      assert cs[i].value == rows[k].cluster;
    }
  }

  // ---------------------------------------------------------------------
  // The row filter
  // ---------------------------------------------------------------------

  /** The state of the four filter widgets. A dropdown with nothing chosen
      sends `None` or an empty list. */
  datatype Selection = Selection(
    villes: Option<seq<string>>,
    contrats: Option<seq<string>>,
    clusters: Option<seq<nat>>,
    highOnly: bool)

  /** `if values:` — a missing or empty choice switches a filter off. */
  predicate Active<T>(choice: Option<seq<T>>) {
    choice.Some? && choice.value != []
  }

  /** `Series.isin(values)` on a cell: a NaN cell is in no list. */
  predicate IsIn(cell: Option<string>, values: seq<string>) {
    cell.Some? && cell.value in values
  }

  /** The row passes every filter that is switched on. */
  predicate Accepts(sel: Selection, row: DashRow) {
    && (Active(sel.villes) ==> IsIn(row.villePropre, sel.villes.value))
    && (Active(sel.contrats) ==> IsIn(row.contratPropre, sel.contrats.value))
    && (Active(sel.clusters) ==> row.cluster in sel.clusters.value)
    && (sel.highOnly ==> row.highDemand == 1)
  }

  /** The four conditions of `apply_filters`, as the predicates it filters by. */
  function InVilles(sel: Selection): DashRow -> bool {
    (r: DashRow) => IsIn(r.villePropre, sel.villes.GetOr([]))
  }

  function InContrats(sel: Selection): DashRow -> bool {
    (r: DashRow) => IsIn(r.contratPropre, sel.contrats.GetOr([]))
  }

  function InClusters(sel: Selection): DashRow -> bool {
    (r: DashRow) => r.cluster in sel.clusters.GetOr([])
  }

  function IsHighDemand(): DashRow -> bool {
    (r: DashRow) => r.highDemand == 1
  }

  /** `apply_filters`: the four filters, one after the other. */
  function ApplyFilters(rows: seq<DashRow>, sel: Selection): (out: seq<DashRow>)
    ensures |out| <= |rows|
  {
    var byVille := if Active(sel.villes) then Filter(rows, InVilles(sel)) else rows;
    var byContrat := if Active(sel.contrats) then Filter(byVille, InContrats(sel)) else byVille;
    var byCluster := if Active(sel.clusters) then Filter(byContrat, InClusters(sel)) else byContrat;
    if sel.highOnly then Filter(byCluster, IsHighDemand()) else byCluster
  }

  /** One stage: filtering when switched on is filtering by the implication. */
  lemma Stage<T>(s: seq<T>, on: bool, keep: T -> bool, stage: T -> bool)
    requires forall x :: stage(x) == (on ==> keep(x))
    ensures (if on then Filter(s, keep) else s) == Filter(s, stage)
  {
    if on {
      FilterExt(s, keep, stage);
    } else {
      FilterAll(s, stage);
    }
  }

  /** The rows passing the stages up to each filter. */
  function PassVilles(sel: Selection): DashRow -> bool {
    (r: DashRow) => Active(sel.villes) ==> InVilles(sel)(r)
  }

  function PassContrats(sel: Selection): DashRow -> bool {
    (r: DashRow) => PassVilles(sel)(r) && (Active(sel.contrats) ==> InContrats(sel)(r))
  }

  function PassClusters(sel: Selection): DashRow -> bool {
    (r: DashRow) => PassContrats(sel)(r) && (Active(sel.clusters) ==> InClusters(sel)(r))
  }

  function PassAll(sel: Selection): DashRow -> bool {
    (r: DashRow) => PassClusters(sel)(r) && (sel.highOnly ==> IsHighDemand()(r))
  }

  /** Adding a switched stage to a filter is filtering by both. */
  lemma AddStage(rows: seq<DashRow>, before: DashRow -> bool, on: bool, keep: DashRow -> bool,
                 after: DashRow -> bool)
    requires forall x :: after(x) == (before(x) && (on ==> keep(x)))
    ensures (if on then Filter(Filter(rows, before), keep) else Filter(rows, before)) == Filter(rows, after)
  {
    var stage := (x: DashRow) => on ==> keep(x);
    Stage(Filter(rows, before), on, keep, stage);
    FilterFilter(rows, before, stage, after);
  }

  /** The four filters in a row are one filter by `Accepts`. */
  lemma ApplyFiltersIsAccepts(rows: seq<DashRow>, sel: Selection)
    ensures ApplyFilters(rows, sel) == Filter(rows, (r: DashRow) => Accepts(sel, r))
  {
    Stage(rows, Active(sel.villes), InVilles(sel), PassVilles(sel));
    AddStage(rows, PassVilles(sel), Active(sel.contrats), InContrats(sel), PassContrats(sel));
    AddStage(rows, PassContrats(sel), Active(sel.clusters), InClusters(sel), PassClusters(sel));
    AddStage(rows, PassClusters(sel), sel.highOnly, IsHighDemand(), PassAll(sel));
    forall i | 0 <= i < |rows|
      ensures PassAll(sel)(rows[i]) == Accepts(sel, rows[i])
    {
      PassAllAccepts(sel, rows[i]);
    }
    FilterExt(rows, PassAll(sel), (r: DashRow) => Accepts(sel, r));
  }

  /** Passing all four stages is being accepted. */
  lemma PassAllAccepts(sel: Selection, r: DashRow)
    ensures PassAll(sel)(r) == Accepts(sel, r)
  {
    assert InVilles(sel)(r) == IsIn(r.villePropre, sel.villes.GetOr([]));
    assert PassVilles(sel)(r) == (Active(sel.villes) ==> InVilles(sel)(r));
    assert PassVilles(sel)(r) == (Active(sel.villes) ==> IsIn(r.villePropre, sel.villes.GetOr([])));
    assert PassContrats(sel)(r) ==
      (PassVilles(sel)(r) && (Active(sel.contrats) ==> IsIn(r.contratPropre, sel.contrats.GetOr([]))));
    assert PassClusters(sel)(r) ==
      (PassContrats(sel)(r) && (Active(sel.clusters) ==> r.cluster in sel.clusters.GetOr([])));
  }

  /** The filtered table is a subsequence of the table: order kept, nothing
      added or repeated. */
  lemma ApplyFiltersSubseq(rows: seq<DashRow>, sel: Selection)
    ensures IsSubseq(ApplyFilters(rows, sel), rows)
    ensures multiset(ApplyFilters(rows, sel)) <= multiset(rows)
  {
    ApplyFiltersIsAccepts(rows, sel);
    FilterIsSubseq(rows, (r: DashRow) => Accepts(sel, r));
  }

  /** Soundness and completeness: a row is kept exactly when it passes
      every active filter. */
  lemma ApplyFiltersExact(rows: seq<DashRow>, sel: Selection)
    ensures forall r :: r in ApplyFilters(rows, sel) <==> r in rows && Accepts(sel, r)
  {
    var out := ApplyFilters(rows, sel);
    ApplyFiltersIsAccepts(rows, sel);
    forall r
      ensures r in out <==> r in rows && Accepts(sel, r)
    {
      if r in out {
        var i :| 0 <= i < |out| && out[i] == r;
      }
      if r in rows && Accepts(sel, r) {
        var i :| 0 <= i < |rows| && rows[i] == r;
      }
    }
  }

  /** With every filter off, the table comes back unchanged. */
  lemma NoFilterKeepsAll(rows: seq<DashRow>, sel: Selection)
    requires !Active(sel.villes) && !Active(sel.contrats) && !Active(sel.clusters) && !sel.highOnly
    ensures ApplyFilters(rows, sel) == rows
  {
  }

  /** A table whose rows all pass comes back unchanged. */
  lemma AllAcceptedKeepsAll(rows: seq<DashRow>, sel: Selection)
    requires forall i :: 0 <= i < |rows| ==> Accepts(sel, rows[i])
    ensures ApplyFilters(rows, sel) == rows
  {
    ApplyFiltersIsAccepts(rows, sel);
    FilterAll(rows, (r: DashRow) => Accepts(sel, r));
  }

  /** Filtering the filtered table again with the same widgets changes
      nothing. */
  lemma ApplyFiltersIdempotent(rows: seq<DashRow>, sel: Selection)
    ensures ApplyFilters(ApplyFilters(rows, sel), sel) == ApplyFilters(rows, sel)
  {
    var out := ApplyFilters(rows, sel);
    ApplyFiltersIsAccepts(rows, sel);
    AllAcceptedKeepsAll(out, sel);
  }

  /** `high_only = 1 in (value or [])`: the check box is ticked when its one
      value, 1, is in the list; a missing list counts as empty. */
  function HighOnly(checked: Option<seq<int>>): (on: bool)
    ensures checked.None? ==> !on
    ensures checked.Some? ==> (on <==> exists i :: 0 <= i < |checked.value| && checked.value[i] == 1)
  {
    1 in checked.GetOr([])
  }

  /** `update_graphs`' filtering step: the widgets' values to the rows the
      charts are drawn from. */
  function FilteredRows(rows: seq<DashRow>, villes: Option<seq<string>>, contrats: Option<seq<string>>,
                        clusters: Option<seq<nat>>, checked: Option<seq<int>>): (out: seq<DashRow>)
    ensures forall r :: r in out <==>
      r in rows && Accepts(Selection(villes, contrats, clusters, HighOnly(checked)), r)
    ensures forall r :: r in out ==> r in rows
    ensures checked.Some? && 1 in checked.value ==> forall r :: r in out ==> r.highDemand == 1
    ensures checked.None? || checked == Some([]) ==>
      forall r :: r in rows && Accepts(Selection(villes, contrats, clusters, false), r) ==> r in out
  {
    var sel := Selection(villes, contrats, clusters, HighOnly(checked));
    ApplyFiltersExact(rows, sel);
    ApplyFilters(rows, sel)
  }
}
