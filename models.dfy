// The colony's entities (colony/models.py) and the small rules attached to
// them: effective date of birth and parents of a mouse, its progeny, the age
// shared by a cage's residents, the mother-present test, the litter summary,
// the split of a cage's notes, and what saving a mouse or a litter does.
module Models {
  import opened Wrappers
  import opened Text

  /** A calendar date, as a day number. */
  type Date = int
  type MouseName = string
  type CageName = string
  type GeneName = string
  type StrainName = string
  type PersonName = string

  /** Mouse.sex: 0 = M, 1 = F, 2 = '?'. */
  datatype Sex = Male | Female | Unknown

  /** A mouse. Its name is unique and identifies it; its litter is named by
      the litter's breeding cage, which is the litter's primary key. */
  datatype Mouse = Mouse(
    name: MouseName,
    sex: Sex,
    cage: Option<CageName>,
    litter: Option<CageName>,
    pureBreeder: bool,
    pureWildType: bool,
    manualDob: Option<Date>,
    manualMother: Option<MouseName>,
    manualFather: Option<MouseName>)

  /** A litter, identified one-to-one by its breeding cage. */
  datatype Litter = Litter(
    breedingCage: CageName,
    proprietor: PersonName,
    father: MouseName,
    mother: MouseName,
    dateMated: Option<Date>,
    dob: Option<Date>,
    dateToeclipped: Option<Date>,
    dateWeaned: Option<Date>,
    dateChecked: Option<Date>)

  datatype Cage = Cage(name: CageName, notes: Option<string>, defunct: bool, proprietor: PersonName)

  /** The six zygosity states of a gene association; the constructor names
      follow the constants MouseGene.zygosity_yy ... zygosity_mm, reading
      y as '+', m as '-' and n as '?'. */
  datatype Zygosity =
    | YY  // +/+
    | YM  // +/-
    | YN  // +/?
    | MN  // ?/-
    | NN  // ?/?
    | MM  // -/-

  /** A row of an association table that points at a mouse. */
  datatype Assoc<V> = Assoc(mouse: MouseName, link: V)
  datatype GeneLink = GeneLink(gene: GeneName, zygosity: Zygosity)
  datatype StrainLink = StrainLink(strain: StrainName, weight: int)
  type GeneAssoc = Assoc<GeneLink>
  type StrainAssoc = Assoc<StrainLink>

  // ---------------------------------------------------------------------
  // Mouse.dob, Mouse.mother, Mouse.father, Mouse.age

  /** The mouse's litter, if it names one, is loaded. */
  predicate LitterKnown(m: Mouse, litters: map<CageName, Litter>) {
    m.litter.Some? ==> m.litter.value in litters
  }

  function Dob(m: Mouse, litters: map<CageName, Litter>): (r: Option<Date>)
    requires LitterKnown(m, litters)
    ensures m.manualDob.Some? ==> r == m.manualDob
    ensures m.manualDob.None? && m.litter.Some? ==> r == litters[m.litter.value].dob
    ensures m.manualDob.None? && m.litter.None? ==> r.None?
  {
    if m.manualDob.Some? then m.manualDob
    else if m.litter.Some? then litters[m.litter.value].dob
    else None
  }

  function Mother(m: Mouse, litters: map<CageName, Litter>): (r: Option<MouseName>)
    requires LitterKnown(m, litters)
    ensures m.manualMother.Some? ==> r == m.manualMother
    ensures m.manualMother.None? && m.litter.Some? ==> r == Some(litters[m.litter.value].mother)
    ensures m.manualMother.None? && m.litter.None? ==> r.None?
  {
    if m.manualMother.Some? then m.manualMother
    else if m.litter.Some? then Some(litters[m.litter.value].mother)
    else None
  }

  function Father(m: Mouse, litters: map<CageName, Litter>): (r: Option<MouseName>)
    requires LitterKnown(m, litters)
    ensures m.manualFather.Some? ==> r == m.manualFather
    ensures m.manualFather.None? && m.litter.Some? ==> r == Some(litters[m.litter.value].father)
    ensures m.manualFather.None? && m.litter.None? ==> r.None?
  {
    if m.manualFather.Some? then m.manualFather
    else if m.litter.Some? then Some(litters[m.litter.value].father)
    else None
  }

  /** Mouse.age: days since the effective date of birth, if known. */
  function MouseAge(m: Mouse, litters: map<CageName, Litter>, today: Date): (r: Option<int>)
    requires LitterKnown(m, litters)
    ensures r.Some? <==> Dob(m, litters).Some?
    ensures r.Some? ==> r.value + Dob(m, litters).value == today
  {
    var d := Dob(m, litters);
    if d.None? then None else Some(today - d.value)
  }

  // ---------------------------------------------------------------------
  // Mouse.progeny

  /** m was born in a litter whose father (or mother) is `parent`. */
  predicate IsChildOf(m: Mouse, litters: map<CageName, Litter>, parent: MouseName, asFather: bool) {
    && m.litter.Some?
    && m.litter.value in litters
    && (if asFather then litters[m.litter.value].father else litters[m.litter.value].mother) == parent
  }

  function ChildrenOf(mice: map<MouseName, Mouse>, litters: map<CageName, Litter>, parent: MouseName, asFather: bool): set<MouseName> {
    set k | k in mice && IsChildOf(mice[k], litters, parent, asFather)
  }

  /** All children of `parent`, looked up as father and as mother; a mouse that
      is both is an integrity error. */
  function Progeny(mice: map<MouseName, Mouse>, litters: map<CageName, Litter>, parent: MouseName): (r: Result<set<MouseName>, Error>)
    ensures r.Failure? <==> ChildrenOf(mice, litters, parent, true) != {} && ChildrenOf(mice, litters, parent, false) != {}
    ensures r.Failure? ==> r.error == ValueError("mouse is both a father and a mother")
    ensures r.Success? ==> forall k :: k in r.value <==>
      k in mice && (IsChildOf(mice[k], litters, parent, true) || IsChildOf(mice[k], litters, parent, false))
  {
    var asFather := ChildrenOf(mice, litters, parent, true);
    var asMother := ChildrenOf(mice, litters, parent, false);
    if asFather != {} && asMother != {} then Failure(ValueError("mouse is both a father and a mother"))
    else if asFather == {} then
      assert forall k :: k in mice && IsChildOf(mice[k], litters, parent, true) ==> k in asFather;
      Success(asMother)
    else
      assert forall k :: k in mice && IsChildOf(mice[k], litters, parent, false) ==> k in asMother;
      Success(asFather)
  }

  // ---------------------------------------------------------------------
  // Cage.age

  /** Index of the first known age, or |ages| when none is known. */
  function FirstKnown(ages: seq<Option<int>>): (k: nat)
    ensures k <= |ages|
    ensures forall j :: 0 <= j < k ==> ages[j].None?
    ensures k < |ages| ==> ages[k].Some?
  {
    if ages == [] then 0
    else if ages[0].Some? then 0
    else 1 + FirstKnown(ages[1..])
  }

  function AgesOf(residents: seq<Mouse>, litters: map<CageName, Litter>, today: Date): (ages: seq<Option<int>>)
    requires forall i :: 0 <= i < |residents| ==> LitterKnown(residents[i], litters)
    ensures |ages| == |residents|
    ensures forall i :: 0 <= i < |residents| ==> ages[i] == MouseAge(residents[i], litters, today)
  {
    seq(|residents|, i requires 0 <= i < |residents| => MouseAge(residents[i], litters, today))
  }

  /** Cage.age: the age shared by the residents. Residents of unknown age are
      skipped until the first known age; from then on every resident must
      have exactly that age (an unknown one included), else None. */
  method CageAge(residents: seq<Mouse>, litters: map<CageName, Litter>, today: Date) returns (age: Option<int>)
    requires forall i :: 0 <= i < |residents| ==> LitterKnown(residents[i], litters)
    ensures var ages := AgesOf(residents, litters, today); var k := FirstKnown(ages);
      && (k == |ages| ==> age.None?)
      && (k < |ages| ==> (age.Some? <==> forall j :: k <= j < |ages| ==> ages[j] == ages[k]))
      && (age.Some? ==> age == ages[k])
  {
    ghost var ages := AgesOf(residents, litters, today);
    ghost var k := FirstKnown(ages);
    age := None;
    var i := 0;
    while i < |residents|
      invariant 0 <= i <= |residents|
      invariant i <= k ==> age.None?
      invariant k < i ==> age == ages[k] && forall j :: k <= j < i ==> ages[j] == ages[k]
    {
      var a := MouseAge(residents[i], litters, today);
      if age.None? {
        age := a;
      } else if age != a {
        return None;
      }
      i := i + 1;
    }
  }

  // ---------------------------------------------------------------------
  // Cage.contains_mother_of_this_litter

  /** The cage has a litter whose mother is known and is housed in this cage. */
  predicate ContainsMotherOfThisLitter(cage: Cage, litters: map<CageName, Litter>, mice: map<MouseName, Mouse>)
  {
    if cage.name !in litters then false
    else
      var mother := litters[cage.name].mother;
      if mother !in mice then false
      else if mice[mother].cage.None? then false
      else mice[mother].cage.value == cage.name
  }

  /** The nested tests of the source, stated as one condition. */
  lemma ContainsMotherIff(cage: Cage, litters: map<CageName, Litter>, mice: map<MouseName, Mouse>)
    ensures ContainsMotherOfThisLitter(cage, litters, mice) <==>
      cage.name in litters && litters[cage.name].mother in mice
      && mice[litters[cage.name].mother].cage == Some(cage.name)
  {
  }

  // ---------------------------------------------------------------------
  // Litter.info

  /** litter.mouse_set.count(): the mice whose litter is this one. */
  function PupCount(mice: map<MouseName, Mouse>, litter: CageName): nat {
    |set k | k in mice && mice[k].litter == Some(litter)|
  }

  /** "N pups" before mating is known, "E<days since mating>" before birth,
      "N@P<age>" after birth. */
  function Info(l: Litter, mice: map<MouseName, Mouse>, today: Date): (r: string)
    ensures r != []
    ensures r[0] == 'E' <==> l.dob.None? && l.dateMated.Some?
    ensures '@' in r <==> l.dob.Some?
  {
    var n := PupCount(mice, l.breedingCage);
    if l.dob.None? then
      if l.dateMated.None? then
        assert "pups" == ['p', 'u', 'p', 's'];
        IntToString(n) + " pups"
      else
        "E" + IntToString(today - l.dateMated.value)
    else
      var r := IntToString(n) + "@P" + IntToString(today - l.dob.value);
      assert r[|IntToString(n)|] == '@';
      r
  }

  /** The numbers in Litter.info can be read back from the text: the pup
      count before " pups", ... */
  lemma InfoReadsBackPups(l: Litter, mice: map<MouseName, Mouse>, today: Date)
    requires l.dob.None? && l.dateMated.None?
    ensures var r := Info(l, mice, today);
      && |r| > 5 && r[|r| - 5..] == " pups"
      && IsIntText(r[..|r| - 5]) && ParseInt(r[..|r| - 5]) == PupCount(mice, l.breedingCage)
  {
    var r := Info(l, mice, today);
    var n := PupCount(mice, l.breedingCage);
    IntToStringRoundTrip(n);
    assert r == IntToString(n) + " pups";
    assert r[..|r| - 5] == IntToString(n);
  }

  /** ... the days since mating after "E", ... */
  lemma InfoReadsBackEmbryonic(l: Litter, mice: map<MouseName, Mouse>, today: Date)
    requires l.dob.None? && l.dateMated.Some?
    ensures var r := Info(l, mice, today);
      IsIntText(r[1..]) && ParseInt(r[1..]) == today - l.dateMated.value
  {
    var r := Info(l, mice, today);
    IntToStringRoundTrip(today - l.dateMated.value);
    assert r == "E" + IntToString(today - l.dateMated.value);
    assert r[1..] == IntToString(today - l.dateMated.value);
  }

  /** ... and the pup count and age around "@P". */
  lemma InfoReadsBackBorn(l: Litter, mice: map<MouseName, Mouse>, today: Date)
    requires l.dob.Some?
    ensures var r := Info(l, mice, today); var n := PupCount(mice, l.breedingCage);
      var k := |IntToString(n)|;
      && k + 2 <= |r| && r[k..k + 2] == "@P" && '@' !in r[..k]
      && IsIntText(r[..k]) && ParseInt(r[..k]) == n
      && IsIntText(r[k + 2..]) && ParseInt(r[k + 2..]) == today - l.dob.value
  {
    var n := PupCount(mice, l.breedingCage);
    assert Info(l, mice, today) == IntToString(n) + "@P" + IntToString(today - l.dob.value);
    ReadBackAround(n, "@P", today - l.dob.value);
  }

  // ---------------------------------------------------------------------
  // Cage.notes_first_half, Cage.notes_second_half

  /** str(self.notes): a missing note reads "None". */
  function NotesText(notes: Option<string>): string {
    if notes.None? then "None" else notes.value
  }

  /** Twice the distance of index i from the middle len(s) / 2. */
  function CenterDistance(s: string, i: int): nat {
    if 2 * i >= |s| then 2 * i - |s| else |s| - 2 * i
  }

  /** The space among s[..n] closest to the middle, the first one on a tie
      (Python's min keeps the first minimum); -1 when there is none. */
  function BestSpace(s: string, n: nat): (r: int)
    requires n <= |s|
    ensures -1 <= r < n
    ensures r == -1 <==> forall j :: 0 <= j < n ==> s[j] != ' '
    ensures r >= 0 ==> s[r] == ' '
    ensures r >= 0 ==> forall j :: 0 <= j < n && s[j] == ' ' ==> CenterDistance(s, r) <= CenterDistance(s, j)
    ensures r >= 0 ==> forall j :: 0 <= j < r && s[j] == ' ' ==> CenterDistance(s, r) < CenterDistance(s, j)
  {
    if n == 0 then -1
    else
      var b := BestSpace(s, n - 1);
      if s[n - 1] != ' ' then b
      else if b == -1 || CenterDistance(s, n - 1) < CenterDistance(s, b) then n - 1
      else b
  }

  /** Where the notes are split: None when they are shorter than the line
      length (okay_line_length, 25 unless the caller says otherwise) or hold
      no space. */
  function NotesSplit(notes: Option<string>, okayLineLength: int): (r: Option<nat>)
    ensures var s := NotesText(notes);
      && (r.None? <==> |s| < okayLineLength || ' ' !in s)
      && (r.Some? ==> r.value < |s| && s[r.value] == ' ')
      && (r.Some? ==> forall j :: 0 <= j < |s| && s[j] == ' ' ==> CenterDistance(s, r.value) <= CenterDistance(s, j))
      && (r.Some? ==> forall j :: 0 <= j < r.value && s[j] == ' ' ==> CenterDistance(s, r.value) < CenterDistance(s, j))
  {
    var s := NotesText(notes);
    if |s| < okayLineLength || ' ' !in s then None
    else
      var b := BestSpace(s, |s|);
      assert b >= 0;
      Some(b)
  }

  /** The notes up to the chosen space. */
  function NotesFirstHalf(notes: Option<string>, okayLineLength: int): (r: string)
    ensures NotesSplit(notes, okayLineLength).None? ==> r == NotesText(notes)
    ensures NotesSplit(notes, okayLineLength).Some? ==> r == NotesText(notes)[..NotesSplit(notes, okayLineLength).value]
  {
    var s := NotesText(notes);
    var split := NotesSplit(notes, okayLineLength);
    if split.None? then s else s[..split.value]
  }

  /** The notes from the chosen space on. */
  function NotesSecondHalf(notes: Option<string>, okayLineLength: int): (r: string)
    ensures NotesSplit(notes, okayLineLength).None? ==> r == ""
    ensures NotesSplit(notes, okayLineLength).Some? ==> r == NotesText(notes)[NotesSplit(notes, okayLineLength).value..]
    ensures NotesSplit(notes, okayLineLength).Some? ==> r != [] && r[0] == ' '
  {
    var s := NotesText(notes);
    var split := NotesSplit(notes, okayLineLength);
    if split.None? then "" else s[split.value..]
  }

  /** The two halves put back together give the notes. */
  lemma NotesHalvesJoin(notes: Option<string>, okayLineLength: int)
    ensures NotesFirstHalf(notes, okayLineLength) + NotesSecondHalf(notes, okayLineLength) == NotesText(notes)
  {
    var s := NotesText(notes);
    var split := NotesSplit(notes, okayLineLength);
    if split.Some? {
      assert s == s[..split.value] + s[split.value..];
    }
  }

  // ---------------------------------------------------------------------
  // Mouse.save and Litter.save

  /** Mouse.save: a mouse saved for the first time inside a litter is placed
      in the litter's breeding cage; nothing else changes. */
  function PlacedMouse(m: Mouse, isNew: bool): (r: Mouse)
    ensures isNew && m.litter.Some? ==> r.cage == m.litter
    ensures r == m.(cage := r.cage)
    ensures !(isNew && m.litter.Some?) ==> r == m
  {
    if isNew && m.litter.Some? then m.(cage := m.litter) else m
  }

  /** Litter.save as written. Its guard `not self.pk` reads the primary key,
      and a Litter's primary key is its breeding cage, so whenever the litter
      has a breeding cage the guard is false and the cage's proprietor is
      never copied. */
  function LitterSaveAsWritten(l: Litter, cageProprietor: PersonName): (r: Litter)
    ensures r == l
  {
    var pk: Option<CageName> := Some(l.breedingCage);
    if pk.None? then l.(proprietor := cageProprietor) else l
  }

  /** A new litter whose default proprietor differs from the cage's keeps the
      default when saved as written. */
  lemma LitterSaveAsWrittenKeepsDefault()
    ensures var l := Litter("C1", "1", "dad", "mom", None, None, None, None, None);
      LitterSaveAsWritten(l, "alice").proprietor != "alice"
  {
  }

  /** Litter.save as intended: a litter saved for the first time takes its
      breeding cage's proprietor; nothing else changes. */
  function LitterSave(l: Litter, isNew: bool, cageProprietor: PersonName): (r: Litter)
    ensures isNew ==> r.proprietor == cageProprietor
    ensures !isNew ==> r == l
    ensures r == l.(proprietor := r.proprietor)
  {
    if isNew then l.(proprietor := cageProprietor) else l
  }

  // ---------------------------------------------------------------------
  // The database tables the engine reads and changes

  /** The rows of an association table that point at mouse k. */
  function RowsOf<V>(rows: seq<Assoc<V>>, k: MouseName): (r: seq<Assoc<V>>)
    ensures forall i :: 0 <= i < |r| ==> r[i].mouse == k
  {
    if rows == [] then []
    else RowsOf(rows[..|rows| - 1], k) + (if rows[|rows| - 1].mouse == k then [rows[|rows| - 1]] else [])
  }

  lemma {:induction false} RowsOfAppend<V>(a: seq<Assoc<V>>, b: seq<Assoc<V>>, k: MouseName)
    ensures RowsOf(a + b, k) == RowsOf(a, k) + RowsOf(b, k)
  {
    if b != [] {
      assert (a + b)[..|a + b| - 1] == a + b[..|b| - 1];
      RowsOfAppend(a, b[..|b| - 1], k);
    } else {
      assert a + b == a;
    }
  }

  lemma {:induction false} RowsOfNone<V>(rows: seq<Assoc<V>>, k: MouseName)
    requires forall i :: 0 <= i < |rows| ==> rows[i].mouse != k
    ensures RowsOf(rows, k) == []
  {
    if rows != [] { RowsOfNone(rows[..|rows| - 1], k); }
  }

  lemma {:induction false} RowsOfAll<V>(rows: seq<Assoc<V>>, k: MouseName)
    requires forall i :: 0 <= i < |rows| ==> rows[i].mouse == k
    ensures RowsOf(rows, k) == rows
  {
    if rows != [] {
      RowsOfAll(rows[..|rows| - 1], k);
      assert rows == rows[..|rows| - 1] + [rows[|rows| - 1]];
    }
  }

  /** The table with every row of mouse k removed (the cascade of a delete). */
  function Without<V>(rows: seq<Assoc<V>>, k: MouseName): (r: seq<Assoc<V>>)
    ensures forall i :: 0 <= i < |r| ==> r[i].mouse != k && r[i] in rows
  {
    if rows == [] then []
    else Without(rows[..|rows| - 1], k) + (if rows[|rows| - 1].mouse == k then [] else [rows[|rows| - 1]])
  }

  /** Removing mouse k's rows leaves every other mouse's rows as they were. */
  lemma {:induction false} WithoutKeepsOthers<V>(rows: seq<Assoc<V>>, k: MouseName, other: MouseName)
    requires other != k
    ensures RowsOf(Without(rows, k), other) == RowsOf(rows, other)
  {
    if rows != [] {
      var init := rows[..|rows| - 1];
      var last := rows[|rows| - 1];
      WithoutKeepsOthers(init, k, other);
      RowsOfAppend(Without(init, k), if last.mouse == k then [] else [last], other);
    }
  }

  datatype Tables = Tables(mice: map<MouseName, Mouse>, genes: seq<GeneAssoc>, strains: seq<StrainAssoc>)

  /** Every mouse is filed under its own name, and every association row
      points at an existing mouse. */
  ghost predicate TablesValid(t: Tables) {
    && (forall k :: k in t.mice ==> t.mice[k].name == k)
    && (forall i :: 0 <= i < |t.genes| ==> t.genes[i].mouse in t.mice)
    && (forall i :: 0 <= i < |t.strains| ==> t.strains[i].mouse in t.mice)
  }

  /** Saving a mouse: a new mouse whose name is taken is an integrity error;
      otherwise the mouse is stored (placed as Mouse.save places it). */
  function SaveMouseRows(t: Tables, m: Mouse, isNew: bool): (r: Result<Tables, Error>)
    ensures r.Failure? <==> isNew && m.name in t.mice
    ensures r.Failure? ==> r.error == IntegrityError
    ensures r.Success? ==> r.value == t.(mice := t.mice[m.name := PlacedMouse(m, isNew)])
  {
    if isNew && m.name in t.mice then Failure(IntegrityError)
    else Success(t.(mice := t.mice[m.name := PlacedMouse(m, isNew)]))
  }

  /** Deleting a mouse deletes its association rows with it. */
  function DeleteMouseRows(t: Tables, k: MouseName): (r: Tables)
    ensures r.mice == t.mice - {k}
    ensures forall other :: other != k ==> RowsOf(r.genes, other) == RowsOf(t.genes, other)
    ensures forall other :: other != k ==> RowsOf(r.strains, other) == RowsOf(t.strains, other)
    ensures TablesValid(t) ==> TablesValid(r)
  {
    forall other | other != k
      ensures RowsOf(Without(t.genes, k), other) == RowsOf(t.genes, other)
      ensures RowsOf(Without(t.strains, k), other) == RowsOf(t.strains, other)
    {
      WithoutKeepsOthers(t.genes, k, other);
      WithoutKeepsOthers(t.strains, k, other);
    }
    Tables(t.mice - {k}, Without(t.genes, k), Without(t.strains, k))
  }

  /** The colony database: mice by name, their gene and strain associations,
      litters by breeding cage, and cages by name. */
  class ColonyDb {
    var mice: map<MouseName, Mouse>
    var geneAssocs: seq<GeneAssoc>
    var strainAssocs: seq<StrainAssoc>
    var litters: map<CageName, Litter>
    var cages: map<CageName, Cage>

    function State(): Tables
      reads this
    {
      Tables(mice, geneAssocs, strainAssocs)
    }

    ghost predicate Valid()
      reads this
    {
      && TablesValid(State())
      && (forall c :: c in litters ==> litters[c].breedingCage == c && c in cages)
    }

    constructor ()
      ensures Valid()
      ensures State() == Tables(map[], [], []) && litters == map[] && cages == map[]
    {
      mice, geneAssocs, strainAssocs := map[], [], [];
      litters, cages := map[], map[];
    }

    /** Mouse.save. */
    method SaveMouse(m: Mouse, isNew: bool) returns (outcome: Outcome<Error>)
      requires Valid()
      modifies this
      ensures Valid()
      ensures outcome.Fail? <==> SaveMouseRows(old(State()), m, isNew).Failure?
      ensures outcome.Fail? ==> outcome.error == IntegrityError && State() == old(State())
      ensures outcome.Pass? ==> State() == SaveMouseRows(old(State()), m, isNew).value
      ensures litters == old(litters) && cages == old(cages)
    {
      if isNew && m.name in mice {
        return Fail(IntegrityError);
      }
      mice := mice[m.name := PlacedMouse(m, isNew)];
      outcome := Pass;
    }

    /** Deleting a mouse and, by cascade, its association rows. */
    method DeleteMouse(k: MouseName)
      requires Valid()
      modifies this
      ensures Valid()
      ensures State() == DeleteMouseRows(old(State()), k)
      ensures litters == old(litters) && cages == old(cages)
    {
      var t := DeleteMouseRows(State(), k);
      mice, geneAssocs, strainAssocs := t.mice, t.genes, t.strains;
    }

    method AddGeneAssoc(a: GeneAssoc)
      requires Valid() && a.mouse in mice
      modifies this
      ensures Valid()
      ensures State() == old(State()).(genes := old(geneAssocs) + [a])
      ensures litters == old(litters) && cages == old(cages)
    {
      geneAssocs := geneAssocs + [a];
    }

    method AddStrainAssoc(a: StrainAssoc)
      requires Valid() && a.mouse in mice
      modifies this
      ensures Valid()
      ensures State() == old(State()).(strains := old(strainAssocs) + [a])
      ensures litters == old(litters) && cages == old(cages)
    {
      strainAssocs := strainAssocs + [a];
    }

    /** Litter.save, with the proprietor rule as intended (see
        LitterSaveAsWritten). */
    method SaveLitter(l: Litter, isNew: bool)
      requires Valid() && l.breedingCage in cages
      modifies this
      ensures Valid()
      ensures State() == old(State()) && cages == old(cages)
      ensures litters == old(litters)[l.breedingCage := LitterSave(l, isNew, cages[l.breedingCage].proprietor)]
    {
      litters := litters[l.breedingCage := LitterSave(l, isNew, cages[l.breedingCage].proprietor)];
    }
  }
}
