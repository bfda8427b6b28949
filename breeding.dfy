// The breeding and inheritance engine of colony/views.py: the strain of a
// litter's progeny, the purity flags of its pups, adding pups to a litter
// and removing them again when the pup count is lowered.
module Breeding {
  import opened Wrappers
  import opened Text
  import opened Collections
  import opened Models

  // ---------------------------------------------------------------------
  // get_strain_of_progeny

  /** The strains of the progeny and their weights, as parallel lists. */
  datatype Progeny = Progeny(strains: seq<StrainName>, weights: seq<int>)

  /** get_strain_of_progeny on the (strain, weight) rows of both parents:
      unknown if either parent has no strain, the common strain if both have
      the same single strain, half of each if they have different single
      strains, and an error for a hybrid parent. */
  function StrainOfProgeny(motherStrains: seq<StrainLink>, fatherStrains: seq<StrainLink>): (r: Result<Progeny, Error>)
    ensures r.Failure? <==> |motherStrains| > 0 && |fatherStrains| > 0 && (|motherStrains| > 1 || |fatherStrains| > 1)
    ensures r.Failure? ==> r.error == ValueError("cannot deal with breeding hybrids")
    ensures r.Success? ==> |r.value.strains| == |r.value.weights| <= 2
    ensures |motherStrains| == 0 || |fatherStrains| == 0 ==> r == Success(Progeny([], []))
    ensures |motherStrains| == 1 && |fatherStrains| == 1 ==>
      var m, f := motherStrains[0].strain, fatherStrains[0].strain;
      r.Success? && (m == f ==> r.value == Progeny([m], [1])) && (m != f ==> r.value == Progeny([m, f], [1, 1]))
  {
    if |motherStrains| == 0 || |fatherStrains| == 0 then
      Success(Progeny([], []))
    else if |motherStrains| == 1 && |fatherStrains| == 1 then
      var m, f := motherStrains[0].strain, fatherStrains[0].strain;
      if m == f then Success(Progeny([m], [1]))
      else Success(Progeny([m, f], [1, 1]))
    else
      Failure(ValueError("cannot deal with breeding hybrids"))
  }

  // ---------------------------------------------------------------------
  // The purity flags of the pups

  datatype Purity = Purity(pure: bool, pureWildType: bool)

  /** pup_is_pure and pup_is_pure_wild_type. `sameSingleGene` is the verdict
      of have_same_single_gene on the parents, and `progenyStrains` the
      number of strains of the progeny. */
  function PupPurity(mother: Mouse, father: Mouse, sameSingleGene: bool, progenyStrains: nat): (r: Purity)
    ensures r.pureWildType <==> mother.pureWildType && father.pureWildType && progenyStrains == 1
    ensures r.pureWildType ==> r.pure
    ensures progenyStrains != 1 ==> !r.pure && !r.pureWildType
    ensures r.pure <==> (progenyStrains == 1 &&
      (|| (mother.pureBreeder && father.pureWildType)
       || (father.pureBreeder && mother.pureWildType)
       || (father.pureBreeder && mother.pureBreeder && sameSingleGene)
       || (mother.pureWildType && father.pureWildType)))
  {
    var sameSingleStrain := progenyStrains == 1;
    var pure :=
      ((mother.pureBreeder && father.pureWildType) ||
       (father.pureBreeder && mother.pureWildType) ||
       (father.pureBreeder && mother.pureBreeder && sameSingleGene)) && sameSingleStrain;
    var pureWildType := mother.pureWildType && father.pureWildType && sameSingleStrain;
    Purity(if pureWildType then true else pure, pureWildType)
  }

  // ---------------------------------------------------------------------
  // The pups of a litter

  /** '<breeding cage>-<i+1>', the name of the pup with index i. */
  function PupName(cage: CageName, i: int): MouseName {
    cage + "-" + IntToString(i + 1)
  }

  /** Different indices give different pup names. */
  lemma PupNameInjective(cage: CageName, i: int, j: int)
    requires PupName(cage, i) == PupName(cage, j)
    ensures i == j
  {
    var a, b := PupName(cage, i), PupName(cage, j);
    assert a[|cage| + 1..] == IntToString(i + 1);
    assert b[|cage| + 1..] == IntToString(j + 1);
    IntToStringInjective(i + 1, j + 1);
  }

  /** The names of the pups with indices start .. n-1. */
  function PupNames(cage: CageName, start: int, n: int): set<MouseName> {
    set i | start <= i < n :: PupName(cage, i)
  }

  /** The pup with index i: unknown sex, born into the litter and housed in
      its breeding cage, no manual overrides. */
  function NewPup(l: Litter, i: int, purity: Purity): (r: Mouse)
    ensures r.name == PupName(l.breedingCage, i) && r.sex == Unknown
    ensures r.litter == Some(l.breedingCage) && r.cage == Some(l.breedingCage)
    ensures r.pureBreeder == purity.pure && r.pureWildType == purity.pureWildType
    ensures PlacedMouse(r, true) == r
  {
    Mouse(PupName(l.breedingCage, i), Unknown, Some(l.breedingCage), Some(l.breedingCage),
          purity.pure, purity.pureWildType, None, None, None)
  }

  /** A pup reads its date of birth and its parents from its litter. */
  lemma NewPupLineage(l: Litter, i: int, purity: Purity, litters: map<CageName, Litter>)
    requires l.breedingCage in litters && litters[l.breedingCage] == l
    ensures var pup := NewPup(l, i, purity);
      && LitterKnown(pup, litters)
      && Dob(pup, litters) == l.dob && Mother(pup, litters) == Some(l.mother) && Father(pup, litters) == Some(l.father)
  {
  }

  /** The gene names on a mouse's gene association rows. */
  function GenesOf(rows: seq<GeneAssoc>, k: MouseName): (r: seq<GeneName>)
    ensures var own := RowsOf(rows, k);
      |r| == |own| && forall i :: 0 <= i < |r| ==> r[i] == own[i].link.gene
  {
    var own := RowsOf(rows, k);
    seq(|own|, i requires 0 <= i < |own| => own[i].link.gene)
  }

  /** The (strain, weight) links on a mouse's strain association rows. */
  function StrainsOf(rows: seq<StrainAssoc>, k: MouseName): (r: seq<StrainLink>)
    ensures var own := RowsOf(rows, k);
      |r| == |own| && forall i :: 0 <= i < |r| ==> r[i] == own[i].link
  {
    var own := RowsOf(rows, k);
    seq(|own|, i requires 0 <= i < |own| => own[i].link)
  }

  /** One '?/?' gene row per gene for the pup. */
  function GeneRows(pup: MouseName, genes: seq<GeneName>): (r: seq<GeneAssoc>)
    ensures |r| == |genes|
    ensures forall i :: 0 <= i < |r| ==> r[i] == Assoc(pup, GeneLink(genes[i], NN))
  {
    seq(|genes|, i requires 0 <= i < |genes| => Assoc(pup, GeneLink(genes[i], NN)))
  }

  /** One strain row per (strain, weight) pair of the progeny for the pup. */
  function StrainRows(pup: MouseName, p: Progeny): (r: seq<StrainAssoc>)
    ensures |r| == if |p.strains| <= |p.weights| then |p.strains| else |p.weights|
    ensures forall i :: 0 <= i < |r| ==> r[i] == Assoc(pup, StrainLink(p.strains[i], p.weights[i]))
  {
    var n := if |p.strains| <= |p.weights| then |p.strains| else |p.weights|;
    seq(n, i requires 0 <= i < n => Assoc(pup, StrainLink(p.strains[i], p.weights[i])))
  }

  /** What add_pups_to_litter computes before creating any pup. */
  datatype Plan = Plan(purity: Purity, genes: seq<GeneName>, progeny: Progeny)

  /** The plan for a litter whose parents are in the table: fails exactly when
      the strain of the progeny cannot be computed; the genes are the distinct
      genes of the mother and the father. */
  function LitterPlan(t: Tables, l: Litter, sameSingleGene: bool): (r: Result<Plan, Error>)
    requires l.mother in t.mice && l.father in t.mice
    ensures var sp := StrainOfProgeny(StrainsOf(t.strains, l.mother), StrainsOf(t.strains, l.father));
      && (r.Failure? <==> sp.Failure?)
      && (r.Failure? ==> r.error == sp.error)
      && (r.Success? ==>
            (r.value.progeny == sp.value &&
             r.value.purity == PupPurity(t.mice[l.mother], t.mice[l.father], sameSingleGene, |sp.value.strains|)))
    ensures r.Success? ==> NoDup(r.value.genes)
    ensures r.Success? ==> var parents := GenesOf(t.genes, l.mother) + GenesOf(t.genes, l.father);
      (forall g :: g in r.value.genes <==> g in parents)
  {
    match StrainOfProgeny(StrainsOf(t.strains, l.mother), StrainsOf(t.strains, l.father))
    case Failure(e) => Failure(e)
    case Success(p) =>
      var parents := GenesOf(t.genes, l.mother) + GenesOf(t.genes, l.father);
      var genes := Dedupe(parents);
      assert forall g :: g in genes <==> g in parents by {
        forall g ensures g in genes <==> g in parents {
          DedupeMembers(parents, g);
        }
      }
      Success(Plan(PupPurity(t.mice[l.mother], t.mice[l.father], sameSingleGene, |p.strains|), genes, p))
  }

  /** Creating one pup: skipped when its name is taken (the integrity error
      is caught), otherwise the pup with its gene and strain rows. */
  function CreatePup(t: Tables, pup: Mouse, plan: Plan): (r: Tables)
    ensures r.mice.Keys == t.mice.Keys + {pup.name}
    ensures pup.name in t.mice ==> r == t
    ensures pup.name !in t.mice ==> r.mice[pup.name] == pup && t.genes <= r.genes && t.strains <= r.strains
  {
    if pup.name in t.mice then t
    else Tables(t.mice[pup.name := pup],
                t.genes + GeneRows(pup.name, plan.genes),
                t.strains + StrainRows(pup.name, plan.progeny))
  }

  /** The tables after creating the pups with indices start .. n-1 in turn. */
  function AddPupsUpTo(t: Tables, l: Litter, plan: Plan, start: int, n: int): Tables
    decreases n - start
  {
    if n <= start then t
    else CreatePup(AddPupsUpTo(t, l, plan, start, n - 1), NewPup(l, n - 1, plan.purity), plan)
  }

  /** The tables after deleting, for each index start .. n-1 in turn, the pup
      of that name if there is one. */
  function RemovePupsUpTo(t: Tables, cage: CageName, start: int, n: int): Tables
    decreases n - start
  {
    if n <= start then t
    else
      var prev := RemovePupsUpTo(t, cage, start, n - 1);
      var name := PupName(cage, n - 1);
      if name in prev.mice then DeleteMouseRows(prev, name) else prev
  }

  /** post_change_number_of_pups: more pups than the litter has are added,
      fewer delete the surplus by name, and the same number changes nothing. */
  function ChangePupCount(t: Tables, l: Litter, newNumber: int, sameSingleGene: bool): (r: Result<Tables, Error>)
    requires l.mother in t.mice && l.father in t.mice
    ensures r.Failure? <==> newNumber > PupCount(t.mice, l.breedingCage) && LitterPlan(t, l, sameSingleGene).Failure?
    ensures newNumber == PupCount(t.mice, l.breedingCage) ==> r == Success(t)
  {
    var count := PupCount(t.mice, l.breedingCage);
    if newNumber > count then
      match LitterPlan(t, l, sameSingleGene)
      case Failure(e) => Failure(e)
      case Success(plan) => Success(AddPupsUpTo(t, l, plan, count, newNumber))
    else if newNumber < count then Success(RemovePupsUpTo(t, l.breedingCage, newNumber, count))
    else Success(t)
  }

  // ---------------------------------------------------------------------
  // Properties of adding pups

  lemma {:induction false} AddPupsValid(t: Tables, l: Litter, plan: Plan, start: int, n: int)
    requires TablesValid(t)
    ensures TablesValid(AddPupsUpTo(t, l, plan, start, n))
    decreases n - start
  {
    if n > start {
      AddPupsValid(t, l, plan, start, n - 1);
    }
  }

  /** The names after adding are the old names and the attempted pup names. */
  lemma {:induction false} AddPupsKeys(t: Tables, l: Litter, plan: Plan, start: int, n: int)
    ensures AddPupsUpTo(t, l, plan, start, n).mice.Keys == t.mice.Keys + PupNames(l.breedingCage, start, n)
    decreases n - start
  {
    if n <= start {
      assert PupNames(l.breedingCage, start, n) == {};
    } else {
      AddPupsKeys(t, l, plan, start, n - 1);
      assert PupNames(l.breedingCage, start, n) == PupNames(l.breedingCage, start, n - 1) + {PupName(l.breedingCage, n - 1)};
    }
  }

  /** A mouse that existed before is left exactly as it was, even when a pup
      of the same name was attempted. */
  lemma {:induction false} AddPupsKeepsExisting(t: Tables, l: Litter, plan: Plan, start: int, n: int, k: MouseName)
    requires k in t.mice
    ensures var r := AddPupsUpTo(t, l, plan, start, n);
      k in r.mice && r.mice[k] == t.mice[k]
    decreases n - start
  {
    if n > start {
      AddPupsKeepsExisting(t, l, plan, start, n - 1, k);
    }
  }

  /** Every attempted pup whose name was free is the pup NewPup describes. */
  lemma {:induction false} AddPupsCreates(t: Tables, l: Litter, plan: Plan, start: int, n: int, i: int)
    requires start <= i < n && PupName(l.breedingCage, i) !in t.mice
    ensures var r := AddPupsUpTo(t, l, plan, start, n);
      PupName(l.breedingCage, i) in r.mice && r.mice[PupName(l.breedingCage, i)] == NewPup(l, i, plan.purity)
    decreases n - start
  {
    var name := PupName(l.breedingCage, i);
    var prev := AddPupsUpTo(t, l, plan, start, n - 1);
    if i < n - 1 {
      AddPupsCreates(t, l, plan, start, n - 1, i);
    } else {
      AddPupsKeys(t, l, plan, start, n - 1);
      if name in prev.mice {
        var j :| start <= j < n - 1 && PupName(l.breedingCage, j) == name;
        PupNameInjective(l.breedingCage, i, j);
      }
    }
  }

  /** Creating a pup appends rows for the pup's own name only. */
  lemma CreatePupRows(prev: Tables, pup: Mouse, plan: Plan, k: MouseName)
    ensures var r := CreatePup(prev, pup, plan); var created := pup.name !in prev.mice && pup.name == k;
      && RowsOf(r.genes, k) == RowsOf(prev.genes, k) + (if created then GeneRows(k, plan.genes) else [])
      && RowsOf(r.strains, k) == RowsOf(prev.strains, k) + (if created then StrainRows(k, plan.progeny) else [])
  {
    if pup.name !in prev.mice {
      var genes, strains := GeneRows(pup.name, plan.genes), StrainRows(pup.name, plan.progeny);
      RowsOfAppend(prev.genes, genes, k);
      RowsOfAppend(prev.strains, strains, k);
      if pup.name == k {
        RowsOfAll(genes, k);
        RowsOfAll(strains, k);
      } else {
        RowsOfNone(genes, k);
        RowsOfNone(strains, k);
      }
    }
  }

  /** The association rows of a mouse that existed before are unchanged. */
  lemma {:induction false} AddPupsKeepsRows(t: Tables, l: Litter, plan: Plan, start: int, n: int, k: MouseName)
    requires k in t.mice
    ensures var r := AddPupsUpTo(t, l, plan, start, n);
      RowsOf(r.genes, k) == RowsOf(t.genes, k) && RowsOf(r.strains, k) == RowsOf(t.strains, k)
    decreases n - start
  {
    if n > start {
      AddPupsKeepsRows(t, l, plan, start, n - 1, k);
      AddPupsKeepsExisting(t, l, plan, start, n - 1, k);
      CreatePupRows(AddPupsUpTo(t, l, plan, start, n - 1), NewPup(l, n - 1, plan.purity), plan, k);
    }
  }

  /** A pup name that is free before its own index has no rows yet. */
  lemma NoRowsBeforeCreation(t: Tables, l: Litter, plan: Plan, start: int, i: int)
    requires TablesValid(t)
    requires start <= i && PupName(l.breedingCage, i) !in t.mice
    ensures var prev := AddPupsUpTo(t, l, plan, start, i); var name := PupName(l.breedingCage, i);
      name !in prev.mice && RowsOf(prev.genes, name) == [] && RowsOf(prev.strains, name) == []
  {
    var prev := AddPupsUpTo(t, l, plan, start, i);
    var name := PupName(l.breedingCage, i);
    AddPupsKeys(t, l, plan, start, i);
    if name in prev.mice {
      var j :| start <= j < i && PupName(l.breedingCage, j) == name;
      PupNameInjective(l.breedingCage, i, j);
    }
    AddPupsValid(t, l, plan, start, i);
    RowsOfNone(prev.genes, name);
    RowsOfNone(prev.strains, name);
  }

  /** A created pup has exactly one '?/?' row per planned gene and one row per
      (strain, weight) pair of the progeny. */
  lemma {:induction false} AddPupsRows(t: Tables, l: Litter, plan: Plan, start: int, n: int, i: int)
    requires TablesValid(t)
    requires start <= i < n && PupName(l.breedingCage, i) !in t.mice
    ensures var r := AddPupsUpTo(t, l, plan, start, n); var name := PupName(l.breedingCage, i);
      RowsOf(r.genes, name) == GeneRows(name, plan.genes) && RowsOf(r.strains, name) == StrainRows(name, plan.progeny)
    decreases n - start
  {
    if i < n - 1 {
      AddPupsRows(t, l, plan, start, n - 1, i);
      AddPupsCreates(t, l, plan, start, n - 1, i);
      LaterPupKeepsRows(AddPupsUpTo(t, l, plan, start, n - 1), l, plan, n - 1, PupName(l.breedingCage, i));
    } else {
      NoRowsBeforeCreation(t, l, plan, start, i);
      LastPupRows(AddPupsUpTo(t, l, plan, start, i), NewPup(l, i, plan.purity), plan);
    }
  }

  /** Creating a later pup leaves the rows of an existing mouse alone. */
  lemma LaterPupKeepsRows(prev: Tables, l: Litter, plan: Plan, j: int, k: MouseName)
    requires k in prev.mice
    ensures var r := CreatePup(prev, NewPup(l, j, plan.purity), plan);
      RowsOf(r.genes, k) == RowsOf(prev.genes, k) && RowsOf(r.strains, k) == RowsOf(prev.strains, k)
  {
    CreatePupRows(prev, NewPup(l, j, plan.purity), plan, k);
  }

  /** A pup created on a free name with no rows gets exactly the planned
      rows. */
  lemma LastPupRows(prev: Tables, pup: Mouse, plan: Plan)
    requires pup.name !in prev.mice && RowsOf(prev.genes, pup.name) == [] && RowsOf(prev.strains, pup.name) == []
    ensures var r := CreatePup(prev, pup, plan);
      RowsOf(r.genes, pup.name) == GeneRows(pup.name, plan.genes) && RowsOf(r.strains, pup.name) == StrainRows(pup.name, plan.progeny)
  {
    CreatePupRows(prev, pup, plan, pup.name);
    assert [] + GeneRows(pup.name, plan.genes) == GeneRows(pup.name, plan.genes);
    assert [] + StrainRows(pup.name, plan.progeny) == StrainRows(pup.name, plan.progeny);
  }

  // ---------------------------------------------------------------------
  // Properties of removing pups

  lemma {:induction false} RemovePupsValid(t: Tables, cage: CageName, start: int, n: int)
    requires TablesValid(t)
    ensures TablesValid(RemovePupsUpTo(t, cage, start, n))
    decreases n - start
  {
    if n > start {
      RemovePupsValid(t, cage, start, n - 1);
    }
  }

  /** The names after removing are the old names minus the pup names. */
  lemma {:induction false} RemovePupsKeys(t: Tables, cage: CageName, start: int, n: int)
    ensures RemovePupsUpTo(t, cage, start, n).mice.Keys == t.mice.Keys - PupNames(cage, start, n)
    decreases n - start
  {
    if n <= start {
      assert PupNames(cage, start, n) == {};
    } else {
      RemovePupsKeys(t, cage, start, n - 1);
      assert PupNames(cage, start, n) == PupNames(cage, start, n - 1) + {PupName(cage, n - 1)};
    }
  }

  /** Every mouse not named as one of the removed pups keeps its record and
      its association rows. */
  lemma {:induction false} RemovePupsKeepsOthers(t: Tables, cage: CageName, start: int, n: int, k: MouseName)
    requires k in t.mice && k !in PupNames(cage, start, n)
    ensures var r := RemovePupsUpTo(t, cage, start, n);
      && k in r.mice && r.mice[k] == t.mice[k]
      && RowsOf(r.genes, k) == RowsOf(t.genes, k) && RowsOf(r.strains, k) == RowsOf(t.strains, k)
    decreases n - start
  {
    if n > start {
      assert PupNames(cage, start, n - 1) <= PupNames(cage, start, n);
      assert PupName(cage, n - 1) in PupNames(cage, start, n);
      RemovePupsKeepsOthers(t, cage, start, n - 1, k);
    }
  }

  /** Removing the pups just added, over the same index range, gives back the
      mice and the association rows every old mouse had. */
  lemma RemoveUndoesAdd(t: Tables, l: Litter, plan: Plan, start: int, n: int)
    requires forall i :: start <= i < n ==> PupName(l.breedingCage, i) !in t.mice
    ensures var r := RemovePupsUpTo(AddPupsUpTo(t, l, plan, start, n), l.breedingCage, start, n);
      && r.mice == t.mice
      && (forall k :: k in t.mice ==> RowsOf(r.genes, k) == RowsOf(t.genes, k) && RowsOf(r.strains, k) == RowsOf(t.strains, k))
  {
    var cage := l.breedingCage;
    var added := AddPupsUpTo(t, l, plan, start, n);
    var r := RemovePupsUpTo(added, cage, start, n);
    AddPupsKeys(t, l, plan, start, n);
    RemovePupsKeys(added, cage, start, n);
    forall k | k in t.mice
      ensures k in r.mice && r.mice[k] == t.mice[k]
      ensures RowsOf(r.genes, k) == RowsOf(t.genes, k) && RowsOf(r.strains, k) == RowsOf(t.strains, k)
    {
      assert k !in PupNames(cage, start, n);
      AddPupsKeepsExisting(t, l, plan, start, n, k);
      AddPupsKeepsRows(t, l, plan, start, n, k);
      RemovePupsKeepsOthers(added, cage, start, n, k);
    }
    assert r.mice.Keys == t.mice.Keys;
  }

  // ---------------------------------------------------------------------
  // The imperative operations on the database

  /** add_pups_to_litter: computes the plan from the parents, then tries to
      create the pups with indices from the litter's current pup count up to
      newNumber - 1, skipping every index whose name is taken. */
  method AddPupsToLitter(db: ColonyDb, l: Litter, newNumber: int, sameSingleGene: bool) returns (outcome: Outcome<Error>)
    requires db.Valid() && l.mother in db.mice && l.father in db.mice
    modifies db
    ensures db.Valid()
    ensures db.litters == old(db.litters) && db.cages == old(db.cages)
    ensures var plan := LitterPlan(old(db.State()), l, sameSingleGene);
      && (plan.Failure? ==> outcome == Fail(plan.error) && db.State() == old(db.State()))
      && (plan.Success? ==>
            (outcome == Pass &&
             db.State() == AddPupsUpTo(old(db.State()), l, plan.value, PupCount(old(db.mice), l.breedingCage), newNumber)))
  {
    var motherStrains := StrainsOf(db.strainAssocs, l.mother);
    var fatherStrains := StrainsOf(db.strainAssocs, l.father);
    var strainResult := StrainOfProgeny(motherStrains, fatherStrains);
    if strainResult.Failure? {
      return Fail(strainResult.error);
    }
    var progeny := strainResult.value;
    var genes := Dedupe(GenesOf(db.geneAssocs, l.mother) + GenesOf(db.geneAssocs, l.father));
    var purity := PupPurity(db.mice[l.mother], db.mice[l.father], sameSingleGene, |progeny.strains|);
    var plan := Plan(purity, genes, progeny);
    assert LitterPlan(db.State(), l, sameSingleGene) == Success(plan);

    var start := PupCount(db.mice, l.breedingCage);
    AddPupsInDb(db, l, plan, start, newNumber);
    outcome := Pass;
  }

  /** The loop of add_pups_to_litter over the indices start .. n-1. */
  method AddPupsInDb(db: ColonyDb, l: Litter, plan: Plan, start: nat, n: int)
    requires db.Valid()
    modifies db
    ensures db.Valid()
    ensures db.litters == old(db.litters) && db.cages == old(db.cages)
    ensures db.State() == AddPupsUpTo(old(db.State()), l, plan, start, n)
  {
    ghost var t0 := db.State();
    if n <= start {
      return;
    }
    var pupnum := start;
    while pupnum < n
      invariant db.Valid()
      invariant db.litters == old(db.litters) && db.cages == old(db.cages)
      invariant start <= pupnum <= n
      invariant db.State() == AddPupsUpTo(t0, l, plan, start, pupnum)
      decreases n - pupnum
    {
      CreatePupInDb(db, NewPup(l, pupnum, plan.purity), plan);
      pupnum := pupnum + 1;
    }
  }

  /** One iteration of add_pups_to_litter: saves the pup, and unless the
      save fails on a taken name, gives it its gene and strain rows. */
  method CreatePupInDb(db: ColonyDb, pup: Mouse, plan: Plan)
    requires db.Valid() && PlacedMouse(pup, true) == pup
    modifies db
    ensures db.Valid()
    ensures db.litters == old(db.litters) && db.cages == old(db.cages)
    ensures db.State() == CreatePup(old(db.State()), pup, plan)
  {
    var saved := db.SaveMouse(pup, true);
    if saved.Pass? {
      AddGeneRowsInDb(db, pup.name, plan.genes);
      AddStrainRowsInDb(db, pup.name, plan.progeny);
    }
  }

  /** The loop over the gene set: one '?/?' row per gene. */
  method AddGeneRowsInDb(db: ColonyDb, name: MouseName, genes: seq<GeneName>)
    requires db.Valid() && name in db.mice
    modifies db
    ensures db.Valid()
    ensures db.litters == old(db.litters) && db.cages == old(db.cages)
    ensures db.State() == old(db.State()).(genes := old(db.geneAssocs) + GeneRows(name, genes))
  {
    for j := 0 to |genes|
      invariant db.Valid() && name in db.mice
      invariant db.litters == old(db.litters) && db.cages == old(db.cages)
      invariant db.State() == old(db.State()).(genes := old(db.geneAssocs) + GeneRows(name, genes[..j]))
    {
      db.AddGeneAssoc(Assoc(name, GeneLink(genes[j], NN)));
      assert GeneRows(name, genes[..j + 1]) == GeneRows(name, genes[..j]) + [Assoc(name, GeneLink(genes[j], NN))];
    }
    assert genes[..|genes|] == genes;
  }

  /** The loop over zip(strains, strains_weight): one row per pair. */
  method AddStrainRowsInDb(db: ColonyDb, name: MouseName, progeny: Progeny)
    requires db.Valid() && name in db.mice
    modifies db
    ensures db.Valid()
    ensures db.litters == old(db.litters) && db.cages == old(db.cages)
    ensures db.State() == old(db.State()).(strains := old(db.strainAssocs) + StrainRows(name, progeny))
  {
    var pairs := StrainRows(name, progeny);
    for j := 0 to |pairs|
      invariant db.Valid() && name in db.mice
      invariant db.litters == old(db.litters) && db.cages == old(db.cages)
      invariant db.State() == old(db.State()).(strains := old(db.strainAssocs) + pairs[..j])
    {
      db.AddStrainAssoc(Assoc(name, StrainLink(progeny.strains[j], progeny.weights[j])));
      assert pairs[..j + 1] == pairs[..j] + [pairs[j]];
    }
    assert pairs[..|pairs|] == pairs;
  }

  /** post_change_number_of_pups with a valid form: adds pups when the new
      number is larger than the litter's pup count and deletes the pups named
      '<cage>-<n+1>' for n from the new number up to the pup count, skipping
      names that do not exist, when it is smaller. */
  method ChangeNumberOfPups(db: ColonyDb, l: Litter, newNumber: int, sameSingleGene: bool) returns (outcome: Outcome<Error>)
    requires db.Valid() && l.mother in db.mice && l.father in db.mice
    modifies db
    ensures db.Valid()
    ensures db.litters == old(db.litters) && db.cages == old(db.cages)
    ensures var r := ChangePupCount(old(db.State()), l, newNumber, sameSingleGene);
      && (r.Failure? ==> outcome == Fail(r.error) && db.State() == old(db.State()))
      && (r.Success? ==> outcome == Pass && db.State() == r.value)
  {
    var count := PupCount(db.mice, l.breedingCage);
    if newNumber > count {
      outcome := AddPupsToLitter(db, l, newNumber, sameSingleGene);
    } else if newNumber < count {
      ghost var t0 := db.State();
      var pupnum := newNumber;
      while pupnum < count
        invariant db.Valid()
        invariant db.litters == old(db.litters) && db.cages == old(db.cages)
        invariant newNumber <= pupnum <= count
        invariant db.State() == RemovePupsUpTo(t0, l.breedingCage, newNumber, pupnum)
        decreases count - pupnum
      {
        var name := PupName(l.breedingCage, pupnum);
        if name in db.mice {
          db.DeleteMouse(name);
        }
        pupnum := pupnum + 1;
      }
      outcome := Pass;
    } else {
      outcome := Pass;
    }
  }
}
