// The form logic of colony/forms.py: the cage-name check of the mating-cage
// form and the construction of the genotyping form of a litter.
module Forms {
  import opened Wrappers
  import opened Text
  import opened Collections
  import opened Sorting
  import opened Models

  // ---------------------------------------------------------------------
  // MatingCageForm.clean_cage_name

  /** The name is refused when a cage of that name exists, and is otherwise
      returned unchanged. */
  function CleanCageName(data: CageName, cages: set<CageName>): (r: Result<CageName, Error>)
    ensures r.Failure? <==> data in cages
    ensures r.Failure? ==> r.error == ValidationError("A cage with this name already exists!")
    ensures r.Success? ==> r.value == data
  {
    if data in cages then Failure(ValidationError("A cage with this name already exists!"))
    else Success(data)
  }

  // ---------------------------------------------------------------------
  // AddGenotypingInfoForm.__init__

  /** The gene of one of a parent's gene associations: its name and type. */
  datatype Gene = Gene(name: GeneName, geneType: string)

  function NamesOf(genes: seq<Gene>): (r: seq<GeneName>)
    ensures |r| == |genes| && forall i :: 0 <= i < |genes| ==> r[i] == genes[i].name
  {
    seq(|genes|, i requires 0 <= i < |genes| => genes[i].name)
  }

  function TypesOf(genes: seq<Gene>): (r: seq<string>)
    ensures |r| == |genes| && forall i :: 0 <= i < |genes| ==> r[i] == genes[i].geneType
  {
    seq(|genes|, i requires 0 <= i < |genes| => genes[i].geneType)
  }

  /** The genes in order, keeping only the first gene of each name. */
  function FirstOfEachName(genes: seq<Gene>): seq<Gene> {
    if genes == [] then []
    else
      var kept := FirstOfEachName(genes[..|genes| - 1]);
      var last := genes[|genes| - 1];
      if last.name in NamesOf(kept) then kept else kept + [last]
  }

  lemma NamesOfSnoc(genes: seq<Gene>, g: Gene)
    ensures NamesOf(genes + [g]) == NamesOf(genes) + [g.name]
    ensures TypesOf(genes + [g]) == TypesOf(genes) + [g.geneType]
  {
  }

  /** Appending a gene keeps it exactly when its name is new. */
  lemma FirstOfEachNameSnoc(genes: seq<Gene>, g: Gene)
    ensures var kept := FirstOfEachName(genes);
      FirstOfEachName(genes + [g]) == if g.name in NamesOf(kept) then kept else kept + [g]
  {
    assert (genes + [g])[..|genes|] == genes;
  }

  /** Keeping the first gene of each name keeps each name once, in order of
      first appearance. */
  lemma {:induction false} FirstOfEachNameNames(genes: seq<Gene>)
    ensures NamesOf(FirstOfEachName(genes)) == Dedupe(NamesOf(genes))
  {
    if genes != [] {
      var init, last := genes[..|genes| - 1], genes[|genes| - 1];
      var kept := FirstOfEachName(init);
      FirstOfEachNameNames(init);
      assert genes == init + [last];
      NamesOfSnoc(init, last);
      DedupeSnoc(NamesOf(init), last.name);
      NamesOfSnoc(kept, last);
    }
  }

  /** Only genes of the input are kept. */
  lemma {:induction false} FirstOfEachNameKeeps(genes: seq<Gene>)
    ensures forall g :: g in FirstOfEachName(genes) ==> g in genes
  {
    if genes != [] {
      var init := genes[..|genes| - 1];
      FirstOfEachNameKeeps(init);
      assert genes == init + [genes[|genes| - 1]];
    }
  }

  /** The parallel lists gene_name_res and gene_type_res, collected over the
      father's gene associations and then the mother's. */
  method CollectParentGenes(father: seq<Gene>, mother: seq<Gene>) returns (names: seq<GeneName>, types: seq<string>)
    ensures |names| == |types|
    ensures names == NamesOf(FirstOfEachName(father + mother))
    ensures types == TypesOf(FirstOfEachName(father + mother))
  {
    names, types := [], [];
    ghost var seen: seq<Gene> := [];
    var parents := [father, mother];
    for p := 0 to 2
      invariant seen == if p == 0 then [] else if p == 1 then father else father + mother
      invariant names == NamesOf(FirstOfEachName(seen)) && types == TypesOf(FirstOfEachName(seen))
    {
      names, types := CollectGenesOf(seen, names, types, parents[p]);
      seen := seen + parents[p];
    }
  }

  /** The loop over one parent's gene associations: a gene is added unless its
      name was already collected. */
  method CollectGenesOf(ghost before: seq<Gene>, names0: seq<GeneName>, types0: seq<string>, parent: seq<Gene>)
    returns (names: seq<GeneName>, types: seq<string>)
    requires names0 == NamesOf(FirstOfEachName(before)) && types0 == TypesOf(FirstOfEachName(before))
    ensures names == NamesOf(FirstOfEachName(before + parent)) && types == TypesOf(FirstOfEachName(before + parent))
  {
    names, types := names0, types0;
    ghost var seen := before;
    for j := 0 to |parent|
      invariant seen == before + parent[..j]
      invariant names == NamesOf(FirstOfEachName(seen)) && types == TypesOf(FirstOfEachName(seen))
    {
      var mg := parent[j];
      assert before + parent[..j + 1] == seen + [mg];
      FirstOfEachNameSnoc(seen, mg);
      if mg.name !in names {
        NamesOfSnoc(FirstOfEachName(seen), mg);
        names := names + [mg.name];
        types := types + [mg.geneType];
      }
      seen := seen + [mg];
    }
    assert parent[..|parent|] == parent;
  }

  /** The collected names hold every gene name of either parent exactly once
      and no other name. */
  lemma CollectedNamesSpec(father: seq<Gene>, mother: seq<Gene>)
    ensures var names := NamesOf(FirstOfEachName(father + mother));
      && NoDup(names)
      && forall n :: n in names <==> n in NamesOf(father) || n in NamesOf(mother)
  {
    var all := father + mother;
    FirstOfEachNameNames(all);
    var names := NamesOf(FirstOfEachName(all));
    assert NamesOf(all) == NamesOf(father) + NamesOf(mother);
    forall n ensures n in names <==> n in NamesOf(all) {
      DedupeMembers(NamesOf(all), n);
    }
  }

  /** Each collected (name, type) pair is a gene of one of the parents. */
  lemma CollectedTypesSpec(father: seq<Gene>, mother: seq<Gene>)
    ensures var kept := FirstOfEachName(father + mother);
      forall i :: 0 <= i < |kept| ==> Gene(NamesOf(kept)[i], TypesOf(kept)[i]) in father + mother
  {
    var kept := FirstOfEachName(father + mother);
    FirstOfEachNameKeeps(father + mother);
    forall i | 0 <= i < |kept| ensures Gene(NamesOf(kept)[i], TypesOf(kept)[i]) in father + mother {
      assert Gene(NamesOf(kept)[i], TypesOf(kept)[i]) == kept[i];
    }
  }

  /** Python's order on (gene_type, gene_name) tuples. */
  predicate TypeNameLe(a: (string, GeneName), b: (string, GeneName)) {
    StrLt(a.0, b.0) || (a.0 == b.0 && (StrLt(a.1, b.1) || a.1 == b.1))
  }

  lemma TypeNameLeTotalPreorder()
    ensures TotalPreorder(TypeNameLe)
  {
    forall a, b ensures TypeNameLe(a, b) || TypeNameLe(b, a) {
      StrLtTotal(a.0, b.0);
      StrLtTotal(a.1, b.1);
    }
    forall a, b, c | TypeNameLe(a, b) && TypeNameLe(b, c) ensures TypeNameLe(a, c) {
      if StrLt(a.0, b.0) && StrLt(b.0, c.0) {
        StrLtTransitive(a.0, b.0, c.0);
      }
      if StrLt(a.1, b.1) && StrLt(b.1, c.1) {
        StrLtTransitive(a.1, b.1, c.1);
      }
    }
  }

  /** sorted(zip(gene_type_res, gene_name_res)). */
  function SortedPairs(types: seq<string>, names: seq<GeneName>): (r: seq<(string, GeneName)>)
    requires |types| == |names|
    ensures multiset(r) == multiset(Zip(types, names))
  {
    TypeNameLeTotalPreorder();
    SortBy(Zip(types, names), TypeNameLe)
  }

  /** sorted_gene_names: the names of the sorted pairs. */
  function SortedGeneNames(types: seq<string>, names: seq<GeneName>): seq<GeneName>
    requires |types| == |names|
  {
    Seconds(SortedPairs(types, names))
  }

  /** The sorted names are a rearrangement of the collected names, ordered by
      (gene type, gene name). */
  lemma SortedGeneNamesSpec(types: seq<string>, names: seq<GeneName>)
    requires |types| == |names|
    ensures multiset(SortedGeneNames(types, names)) == multiset(names)
    ensures SortedBy(SortedPairs(types, names), TypeNameLe)
  {
    TypeNameLeTotalPreorder();
    assert SortedPairs(types, names) == SortBy(Zip(types, names), TypeNameLe);
    SecondsPermutation(SortedPairs(types, names), Zip(types, names));
    assert Seconds(Zip(types, names)) == names;
  }

  /** The zygosity choices, in the order most likely to be clicked. */
  const ZygosityChoices: seq<Zygosity> := [NN, YN, YY, MN, YM, MM]

  /** Every zygosity is offered exactly once. */
  lemma ZygosityChoicesComplete(z: Zygosity)
    ensures z in ZygosityChoices && NoDup(ZygosityChoices)
  {
  }

  /** A result field of the form. */
  datatype ResultField = ResultField(caption: string, choices: seq<Zygosity>)

  /** The fields of the genotyping form: the gene to choose and one result
      field per pup, keyed 'result_<mouse name>'. */
  datatype GenotypingForm = GenotypingForm(geneChoices: set<GeneName>, results: map<string, ResultField>)

  function ResultKey(mouse: MouseName): string {
    "result_" + mouse
  }

  function ResultLabel(mouse: MouseName): string {
    "Result for mouse " + mouse
  }

  /** Different mice get different result fields. */
  lemma ResultKeyInjective(a: MouseName, b: MouseName)
    requires ResultKey(a) == ResultKey(b)
    ensures a == b
  {
    assert a == ResultKey(a)[7..];
    assert b == ResultKey(b)[7..];
  }

  /** AddGenotypingInfoForm.__init__ for a litter with the given parents'
      genes and pups. */
  method GenotypingFormFor(father: seq<Gene>, mother: seq<Gene>, pups: seq<MouseName>) returns (form: GenotypingForm)
    ensures var names := NamesOf(FirstOfEachName(father + mother));
      form.geneChoices == set n | n in names
    ensures form.results.Keys == set p | p in pups :: ResultKey(p)
    ensures forall p :: p in pups ==> form.results[ResultKey(p)] == ResultField(ResultLabel(p), ZygosityChoices)
  {
    var names, types := CollectParentGenes(father, mother);
    var sortedNames := SortedGeneNames(types, names);
    SortedGeneNamesSpec(types, names);
    var choices := set n | n in sortedNames;
    assert forall n :: n in sortedNames <==> n in multiset(names);
    var results := ResultFields(pups);
    form := GenotypingForm(choices, results);
  }

  /** The loop over the pups: one result field per pup, keyed by its name. */
  method ResultFields(pups: seq<MouseName>) returns (results: map<string, ResultField>)
    ensures results.Keys == set p | p in pups :: ResultKey(p)
    ensures forall p :: p in pups ==> results[ResultKey(p)] == ResultField(ResultLabel(p), ZygosityChoices)
  {
    results := map[];
    for i := 0 to |pups|
      invariant results.Keys == set p | p in pups[..i] :: ResultKey(p)
      invariant forall p :: p in pups[..i] ==> results[ResultKey(p)] == ResultField(ResultLabel(p), ZygosityChoices)
    {
      var mouse := pups[i];
      assert pups[..i + 1] == pups[..i] + [mouse];
      forall p | p in pups[..i] && ResultKey(p) == ResultKey(mouse) ensures p == mouse {
        ResultKeyInjective(p, mouse);
      }
      results := results[ResultKey(mouse) := ResultField(ResultLabel(mouse), ZygosityChoices)];
    }
    assert pups[..|pups|] == pups;
  }
}
