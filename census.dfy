// The grouping of census_by_genotype (colony/views.py): the distinct
// genesets of the listed cages, sorted by first gene and then by number of
// genes, each with its display name and the cages it concerns. Each cage
// comes with its relevant genesets (Cage.relevant_genesets), which are
// computed elsewhere and are input here.
module Census {
  import opened Text
  import opened Collections
  import opened Sorting
  import opened Models

  type Geneset = seq<GeneName>

  /** A cage of the census query and its relevant genesets. */
  datatype CensusCage = CensusCage(name: CageName, genesets: seq<Geneset>)

  /** One entry of sorted_by_geneset. */
  datatype GenesetRow = GenesetRow(geneset: Geneset, dname: string, cages: seq<CensusCage>)

  /** The (cage, geneset) pairs of one cage, in the order of its genesets. */
  function CageIncidences(c: CensusCage): (r: seq<(CensusCage, Geneset)>)
    ensures |r| == |c.genesets|
    ensures forall k :: 0 <= k < |r| ==> r[k] == (c, c.genesets[k])
  {
    seq(|c.genesets|, k requires 0 <= k < |c.genesets| => (c, c.genesets[k]))
  }

  /** The (cage, geneset) pairs met by the nested loops over the cages and
      their genesets, in the order the loops meet them. */
  function Incidences(cages: seq<CensusCage>): seq<(CensusCage, Geneset)> {
    if cages == [] then []
    else Incidences(cages[..|cages| - 1]) + CageIncidences(cages[|cages| - 1])
  }

  /** The pairs are exactly the cages with each of their genesets. */
  lemma {:induction false} IncidencesMembers(cages: seq<CensusCage>, c: CensusCage, g: Geneset)
    ensures (c, g) in Incidences(cages) <==> c in cages && g in c.genesets
  {
    if cages != [] {
      var init, last := cages[..|cages| - 1], cages[|cages| - 1];
      IncidencesMembers(init, c, g);
      assert cages == init + [last];
      if c == last && g in c.genesets {
        var k :| 0 <= k < |last.genesets| && last.genesets[k] == g;
        assert CageIncidences(last)[k] == (c, g);
      }
    }
  }

  /** Extending the cages by one extends the pairs by that cage's pairs. */
  lemma IncidencesSnoc(cages: seq<CensusCage>, i: nat)
    requires i < |cages|
    ensures Incidences(cages[..i + 1]) == Incidences(cages[..i]) + CageIncidences(cages[i])
  {
    assert cages[..i + 1][..i] == cages[..i];
  }

  /** Every geneset met by the loops, with repetitions. */
  function AllGenesets(cages: seq<CensusCage>): seq<Geneset> {
    Seconds(Incidences(cages))
  }

  /** The cages listed under geneset g: one entry per pair (cage, g). */
  function CagesFor(inc: seq<(CensusCage, Geneset)>, g: Geneset): seq<CensusCage> {
    if inc == [] then []
    else CagesFor(inc[..|inc| - 1], g) + (if inc[|inc| - 1].1 == g then [inc[|inc| - 1].0] else [])
  }

  /** A cage is listed under g exactly when the pair (cage, g) was met. */
  lemma {:induction false} CagesForMembers(inc: seq<(CensusCage, Geneset)>, g: Geneset, c: CensusCage)
    ensures c in CagesFor(inc, g) <==> (c, g) in inc
  {
    if inc != [] {
      var init, last := inc[..|inc| - 1], inc[|inc| - 1];
      assert inc == init + [last];
      CagesForMembers(init, g, c);
    }
  }

  /** geneset2cage_l after the loops have met the pairs `inc`. */
  function Group(inc: seq<(CensusCage, Geneset)>): map<Geneset, seq<CensusCage>> {
    if inc == [] then map[]
    else
      var m := Group(inc[..|inc| - 1]);
      var last := inc[|inc| - 1];
      if last.1 in m then m[last.1 := m[last.1] + [last.0]] else m[last.1 := [last.0]]
  }

  /** The dictionary has an entry for every geneset met, holding the cages
      listed under it. */
  lemma {:induction false} GroupSpec(inc: seq<(CensusCage, Geneset)>, g: Geneset)
    ensures g in Group(inc) <==> g in Seconds(inc)
    ensures g in Group(inc) ==> Group(inc)[g] == CagesFor(inc, g)
  {
    if inc != [] {
      var init, last := inc[..|inc| - 1], inc[|inc| - 1];
      assert Seconds(inc) == Seconds(init) + [last.1];
      GroupSpec(init, g);
      if last.1 == g && g !in Group(init) {
        CagesForNone(init, g);
      }
    }
  }

  lemma {:induction false} CagesForNone(inc: seq<(CensusCage, Geneset)>, g: Geneset)
    requires g !in Seconds(inc)
    ensures CagesFor(inc, g) == []
  {
    if inc != [] {
      var init, last := inc[..|inc| - 1], inc[|inc| - 1];
      assert Seconds(inc) == Seconds(init) + [last.1];
      CagesForNone(init, g);
    }
  }

  /** The first gene of a geneset, or '' for the empty geneset. */
  function FirstGene(g: Geneset): string {
    if |g| > 0 then g[0] else ""
  }

  /** The sort key (first gene or '', number of genes), compared as a Python
      tuple. */
  predicate GenesetLe(a: Geneset, b: Geneset) {
    StrLt(FirstGene(a), FirstGene(b)) || (FirstGene(a) == FirstGene(b) && |a| <= |b|)
  }

  lemma GenesetLeTotalPreorder()
    ensures TotalPreorder(GenesetLe)
  {
    forall a, b ensures GenesetLe(a, b) || GenesetLe(b, a) {
      StrLtTotal(FirstGene(a), FirstGene(b));
    }
    forall a, b, c | GenesetLe(a, b) && GenesetLe(b, c) ensures GenesetLe(a, c) {
      if StrLt(FirstGene(a), FirstGene(b)) && StrLt(FirstGene(b), FirstGene(c)) {
        StrLtTransitive(FirstGene(a), FirstGene(b), FirstGene(c));
      }
    }
  }

  /** sorted(..., key=lambda v: (v[0] if len(v) > 0 else '', len(v))). */
  function SortGenesets(gs: seq<Geneset>): (r: seq<Geneset>)
    ensures multiset(r) == multiset(gs)
  {
    GenesetLeTotalPreorder();
    SortBy(gs, GenesetLe)
  }

  /** The sorted genesets are in key order. */
  lemma SortGenesetsSorted(gs: seq<Geneset>)
    ensures SortedBy(SortGenesets(gs), GenesetLe)
  {
    GenesetLeTotalPreorder();
    assert SortGenesets(gs) == SortBy(gs, GenesetLe);
  }

  /** ' x '.join(geneset), or 'WT' for the empty geneset. */
  function DisplayName(g: Geneset): (r: string)
    ensures g == [] ==> r == "WT"
    ensures |g| == 1 ==> r == g[0]
    ensures |g| >= 2 ==> r == Join(" x ", g[..|g| - 1]) + " x " + g[|g| - 1]
  {
    if |g| > 0 then Join(" x ", g) else "WT"
  }

  /** The entry for geneset g. */
  function RowFor(cages: seq<CensusCage>, g: Geneset): GenesetRow {
    GenesetRow(g, DisplayName(g), CagesFor(Incidences(cages), g))
  }

  /** The distinct genesets in order of first appearance, then sorted. */
  function CensusGenesets(cages: seq<CensusCage>): seq<Geneset> {
    SortGenesets(Dedupe(AllGenesets(cages)))
  }

  /** sorted_by_geneset. */
  function CensusRows(cages: seq<CensusCage>): (r: seq<GenesetRow>)
    ensures var gs := CensusGenesets(cages);
      |r| == |gs| && forall k :: 0 <= k < |r| ==> r[k] == RowFor(cages, gs[k])
  {
    var gs := CensusGenesets(cages);
    seq(|gs|, k requires 0 <= k < |gs| => RowFor(cages, gs[k]))
  }

  /** One more pair seen by the first loop. */
  lemma UniqueStep(seen: seq<(CensusCage, Geneset)>, c: CensusCage, g: Geneset)
    ensures var d := Dedupe(Seconds(seen));
      Dedupe(Seconds(seen + [(c, g)])) == if g in d then d else d + [g]
  {
    assert Seconds(seen + [(c, g)]) == Seconds(seen) + [g];
    DedupeSnoc(Seconds(seen), g);
  }

  /** One more pair seen by the second loop. */
  lemma GroupStep(seen: seq<(CensusCage, Geneset)>, c: CensusCage, g: Geneset)
    ensures var m := Group(seen);
      Group(seen + [(c, g)]) == if g in m then m[g := m[g] + [c]] else m[g := [c]]
  {
    assert (seen + [(c, g)])[..|seen|] == seen;
  }

  /** The pairs met so far, one geneset of cage c further. */
  lemma CagePrefixStep(before: seq<(CensusCage, Geneset)>, c: CensusCage, j: nat)
    requires j < |c.genesets|
    ensures before + CageIncidences(c)[..j + 1] == (before + CageIncidences(c)[..j]) + [(c, c.genesets[j])]
  {
    assert CageIncidences(c)[..j + 1] == CageIncidences(c)[..j] + [(c, c.genesets[j])];
  }

  /** The first loop of census_by_genotype: the distinct genesets in order
      of first appearance. */
  method UniqueGenesets(cages: seq<CensusCage>) returns (unique: seq<Geneset>)
    ensures unique == Dedupe(AllGenesets(cages))
  {
    unique := [];
    for i := 0 to |cages|
      invariant unique == Dedupe(Seconds(Incidences(cages[..i])))
    {
      IncidencesSnoc(cages, i);
      unique := AddUniqueGenesets(unique, Incidences(cages[..i]), cages[i]);
    }
    assert cages[..|cages|] == cages;
  }

  /** The inner loop of the first loop, over the genesets of one cage. */
  method AddUniqueGenesets(unique0: seq<Geneset>, ghost before: seq<(CensusCage, Geneset)>, c: CensusCage)
    returns (unique: seq<Geneset>)
    requires unique0 == Dedupe(Seconds(before))
    ensures unique == Dedupe(Seconds(before + CageIncidences(c)))
  {
    unique := unique0;
    ghost var seen := before;
    assert before + CageIncidences(c)[..0] == before;
    for j := 0 to |c.genesets|
      invariant seen == before + CageIncidences(c)[..j]
      invariant unique == Dedupe(Seconds(seen))
    {
      var g := c.genesets[j];
      UniqueStep(seen, c, g);
      CagePrefixStep(before, c, j);
      seen := seen + [(c, g)];
      if g !in unique {
        unique := unique + [g];
      }
    }
    assert CageIncidences(c)[..|c.genesets|] == CageIncidences(c);
  }

  /** The second loop of census_by_genotype: geneset2cage_l. */
  method GroupByGeneset(cages: seq<CensusCage>) returns (groups: map<Geneset, seq<CensusCage>>)
    ensures groups == Group(Incidences(cages))
  {
    groups := map[];
    for i := 0 to |cages|
      invariant groups == Group(Incidences(cages[..i]))
    {
      IncidencesSnoc(cages, i);
      groups := AddGroups(groups, Incidences(cages[..i]), cages[i]);
    }
    assert cages[..|cages|] == cages;
  }

  /** The inner loop of the second loop, over the genesets of one cage. */
  method AddGroups(groups0: map<Geneset, seq<CensusCage>>, ghost before: seq<(CensusCage, Geneset)>, c: CensusCage)
    returns (groups: map<Geneset, seq<CensusCage>>)
    requires groups0 == Group(before)
    ensures groups == Group(before + CageIncidences(c))
  {
    groups := groups0;
    ghost var seen := before;
    assert before + CageIncidences(c)[..0] == before;
    for j := 0 to |c.genesets|
      invariant seen == before + CageIncidences(c)[..j]
      invariant groups == Group(seen)
    {
      var g := c.genesets[j];
      GroupStep(seen, c, g);
      CagePrefixStep(before, c, j);
      seen := seen + [(c, g)];
      if g in groups {
        groups := groups[g := groups[g] + [c]];
      } else {
        groups := groups[g := [c]];
      }
    }
    assert CageIncidences(c)[..|c.genesets|] == CageIncidences(c);
  }

  /** Every census geneset is one met by the loops. */
  lemma CensusGenesetMet(cages: seq<CensusCage>, k: nat)
    requires k < |CensusGenesets(cages)|
    ensures CensusGenesets(cages)[k] in AllGenesets(cages)
  {
    var unique := Dedupe(AllGenesets(cages));
    var g := CensusGenesets(cages)[k];
    assert g in multiset(unique);
    DedupeMembers(AllGenesets(cages), g);
  }

  /** The entry of a geneset met by the loops reads its cages from the
      dictionary. */
  lemma RowFromGroups(cages: seq<CensusCage>, g: Geneset)
    requires g in AllGenesets(cages)
    ensures g in Group(Incidences(cages))
    ensures RowFor(cages, g) == GenesetRow(g, DisplayName(g), Group(Incidences(cages))[g])
  {
    GroupSpec(Incidences(cages), g);
  }

  /** The grouping part of census_by_genotype: the distinct genesets, sorted,
      each with its display name and its cages. */
  method CensusByGenotype(cages: seq<CensusCage>) returns (rows: seq<GenesetRow>)
    ensures rows == CensusRows(cages)
  {
    var unique := UniqueGenesets(cages);
    var sorted := SortGenesets(unique);
    var groups := GroupByGeneset(cages);
    assert sorted == CensusGenesets(cages);
    forall k | 0 <= k < |sorted| ensures sorted[k] in groups {
      CensusGenesetMet(cages, k);
      RowFromGroups(cages, sorted[k]);
    }
    rows := RowsFromGroups(sorted, groups);
    CensusRowsFromGroups(cages, groups, rows);
  }

  /** The last loop of census_by_genotype: one entry per geneset, in order,
      with its display name and the cages the dictionary holds for it. */
  method RowsFromGroups(sorted: seq<Geneset>, groups: map<Geneset, seq<CensusCage>>) returns (rows: seq<GenesetRow>)
    requires forall k :: 0 <= k < |sorted| ==> sorted[k] in groups
    ensures |rows| == |sorted|
    ensures forall m :: 0 <= m < |rows| ==> rows[m] == GenesetRow(sorted[m], DisplayName(sorted[m]), groups[sorted[m]])
  {
    rows := [];
    for k := 0 to |sorted|
      invariant |rows| == k
      invariant forall m :: 0 <= m < k ==> rows[m] == GenesetRow(sorted[m], DisplayName(sorted[m]), groups[sorted[m]])
    {
      var g := sorted[k];
      rows := rows + [GenesetRow(g, DisplayName(g), groups[g])];
    }
  }

  /** The entries built from the dictionary, one per census geneset in
      order, are sorted_by_geneset. */
  lemma CensusRowsFromGroups(cages: seq<CensusCage>, groups: map<Geneset, seq<CensusCage>>, rows: seq<GenesetRow>)
    requires groups == Group(Incidences(cages))
    requires |rows| == |CensusGenesets(cages)|
    requires forall m :: 0 <= m < |rows| ==>
      (CensusGenesets(cages)[m] in groups &&
       rows[m] == GenesetRow(CensusGenesets(cages)[m], DisplayName(CensusGenesets(cages)[m]), groups[CensusGenesets(cages)[m]]))
    ensures rows == CensusRows(cages)
  {
    var gs, expected := CensusGenesets(cages), CensusRows(cages);
    forall m | 0 <= m < |rows| ensures rows[m] == expected[m] {
      CensusGenesetMet(cages, m);
      RowFromGroups(cages, gs[m]);
    }
  }

  /** A geneset is met by the loops exactly when some listed cage has it. */
  lemma AllGenesetsMembers(cages: seq<CensusCage>, g: Geneset)
    ensures g in AllGenesets(cages) <==> exists c :: c in cages && g in c.genesets
  {
    var inc := Incidences(cages);
    if g in AllGenesets(cages) {
      var k :| 0 <= k < |inc| && AllGenesets(cages)[k] == g;
      IncidencesMembers(cages, inc[k].0, g);
      assert inc[k] == (inc[k].0, g);
    }
    if exists c :: c in cages && g in c.genesets {
      var c :| c in cages && g in c.genesets;
      IncidencesMembers(cages, c, g);
      var k :| 0 <= k < |inc| && inc[k] == (c, g);
      assert AllGenesets(cages)[k] == g;
    }
  }

  /** The genesets of the census are distinct, ordered by the sort key, and
      are exactly the genesets of the listed cages. */
  lemma CensusGenesetsSpec(cages: seq<CensusCage>)
    ensures var gs := CensusGenesets(cages);
      && NoDup(gs)
      && SortedBy(gs, GenesetLe)
      && forall g :: g in gs <==> exists c :: c in cages && g in c.genesets
  {
    var all := AllGenesets(cages);
    var unique := Dedupe(all);
    var gs := CensusGenesets(cages);
    PermutationNoDup(unique, gs);
    SortGenesetsSorted(unique);
    forall g ensures g in gs <==> exists c :: c in cages && g in c.genesets {
      assert g in gs <==> g in multiset(unique);
      AllGenesetsMembers(cages, g);
      DedupeMembers(all, g);
    }
  }

  /** Every cage listed under a geneset has that geneset. */
  lemma CensusCagesSound(cages: seq<CensusCage>, k: nat, c: CensusCage)
    requires k < |CensusRows(cages)| && c in CensusRows(cages)[k].cages
    ensures c in cages && CensusRows(cages)[k].geneset in c.genesets
  {
    var g := CensusGenesets(cages)[k];
    assert CensusRows(cages)[k] == RowFor(cages, g);
    CagesForMembers(Incidences(cages), g, c);
    IncidencesMembers(cages, c, g);
  }

  /** Every cage is listed under each of its genesets. */
  lemma CensusCagesComplete(cages: seq<CensusCage>, c: CensusCage, g: Geneset)
    requires c in cages && g in c.genesets
    ensures exists k :: 0 <= k < |CensusRows(cages)| && CensusRows(cages)[k].geneset == g && c in CensusRows(cages)[k].cages
  {
    var rows := CensusRows(cages);
    var gs := CensusGenesets(cages);
    CensusGenesetsSpec(cages);
    assert g in gs;
    var k :| 0 <= k < |gs| && gs[k] == g;
    IncidencesMembers(cages, c, g);
    CagesForMembers(Incidences(cages), g, c);
    assert rows[k] == RowFor(cages, g);
  }
}
