# Mouse colony husbandry and breeding rules, in Dafny

This project models the husbandry and breeding rules of the `colony` Django app,
a tool for running a laboratory mouse colony. The app records mice, their
cages, the litters bred in breeding cages, and the gene and strain
associations of each mouse. The model covers four parts of it:

- **The litter husbandry scheduler** (`husbandry.dfy`, with the record types and
  mouse/cage queries in `models.dfy`). Four rules give a litter's pending tasks
  as windows (trigger, target, warn):
  - specify the mating date;
  - check for pups;
  - toe-clip;
  - wean.

  A fifth rule, genotype, is defined but never consulted. The litter's needs
  message shows the tasks whose trigger has come, in bold once their warn
  date has come. The cage's needs message puts the special requests in front
  of that text. The small queries beside it are also modelled:
  - a mouse's effective date of birth and parents;
  - its progeny;
  - the common age of a cage;
  - whether a cage holds its litter's mother;
  - the litter summary text;
  - the split of a cage's notes into two lines.
- **The breeding engine** (`breeding.dfy`). It covers:
  - the strain of a litter's progeny;
  - the purity flags of the pups;
  - adding pups to a litter. Pups are named `<cage>-<i+1>`; a name that is
    already taken is skipped. Each new pup gets `?/?` gene rows and strain rows.
  - removing surplus pups by the same names when the pup count is lowered.

  The database is the class `Models.ColonyDb`. It holds a name-keyed map of
  mice and sequences of association rows, and its methods change it in place.
- **The mating-date rule** (`mating.dfy`). A new mating cage is dated by the
  latest birth among the mother's litters with the same father. If there is
  no such birth, it is dated today.
- **The census by genotype and the genotyping form** (`census.dfy`, `forms.dfy`).
  - Census: the genesets are de-duplicated in order of first appearance,
    sorted by (first gene, length), and the cages are grouped under each one.
    Each geneset gets a display name.
  - Genotyping form: the parents' gene names are collected, de-duplicated,
    then sorted by (gene type, gene name). One result field is built per pup.
  - The mating-cage form refuses a cage name that is already taken.

Conventions:
- Dates are integer day numbers.
- "Today" is a parameter, and the `%m/%d` rendering of a date is a function
  parameter `mmdd`.
- Python's `None` is `Option.None`, and a date counts as true exactly when
  it is present.
- `str(None)` prints as `"None"`.
- Errors the source raises are `Result.Failure` values carrying
  `ValueError`, `ValidationError` or `IntegrityError`.

Supporting modules:
- `wrappers.dfy`: Option, Result and Outcome.
- `text.dfy`: decimal text of integers with its parse-back round trip,
  joining strings, and Python's string order.
- `collections.dfy`: order-preserving de-duplication and projections.
- `sorting.dfy`: an insertion sort by a total preorder, proved sorted and a
  permutation.

## Model

| member | source | states |
|---|---|---|
| Husbandry.NeedsDateMated | colony/models.py:515-529 | no need exactly when the mating date or the birth date is set; otherwise "specify date mated" with trigger = target = today, warn = today + 1 |
| Husbandry.NeedsPupCheck | colony/models.py:531-547 | no need exactly when the litter is not mated or already born; otherwise "pup check" at mating + 20 / 25 / 35, so trigger <= target <= warn |
| Husbandry.NeedsToeClip | colony/models.py:549-565 | no need exactly when the litter is unborn or already toe-clipped; otherwise "toe clip" at birth + 0 / 7 / 14 |
| Husbandry.NeedsGenotype | colony/models.py:567-583 | no need exactly when the litter is unborn or already toe-clipped; otherwise "genotype" at birth + 0 / 17 / 20 |
| Husbandry.NeedsWean | colony/models.py:585-601 | no need exactly when the litter is unborn or already weaned; otherwise "wean" with trigger birth + 17 and target = warn = birth + 20 |
| Husbandry.LitterNeeds | colony/models.py:603-616 | the four needs consulted, in the order date mated, pup check, toe clip, wean; the genotype need is not among them |
| Husbandry.NeedLines | colony/models.py:620-637 | the rendered lines of the active needs, in order, at most one per need; characterised by NeedLinesOfLitter and AutoNeedsEmptyIff |
| Husbandry.AutoNeedsMessage | colony/models.py:603-640 | the loop's result is the `<br />`-join of the rendered lines of the active needs, taken in the rule order date mated, pup check, toe clip, wean |
| Husbandry.NeedLinesOfLitter | colony/models.py:609-627 | the lines are exactly those of the four consulted rules, each present iff its need exists and its trigger has come, in fixed order; genotype never contributes |
| Husbandry.RenderNeedBold | colony/models.py:630-637 | a rendered line is wrapped in `<b>` exactly when the need's warn date has come |
| Husbandry.AutoNeedsEmptyIff | colony/models.py:638-640 | the message is empty exactly when none of the four rules is active |
| Husbandry.PupCheckDue | colony/models.py:531-547 | a litter mated on day D and unborn shows only "pup check on <D+25>", unemphasised, on day D + 22 |
| Husbandry.PupCheckOverdue | colony/models.py:531-547 | the same litter on day D + 40 shows the pup check in bold |
| Husbandry.RequestLine | colony/models.py:89-95 | one request's line starts with `<b>` exactly when the request is still open |
| Husbandry.RequestLines | colony/models.py:89-96 | one line per special request, each the request's own line, in order |
| Husbandry.SpecialRequestMessage | colony/models.py:89-96 | the result is the `<br>`-join of the request lines: bold while open, struck through once completed |
| Husbandry.CombineMessages | colony/models.py:136-146 | the two texts are separated by `<br />` only when both are non-empty; otherwise the non-empty one (or "") is returned |
| Husbandry.CageAutoNeedsMessage | colony/models.py:136-146 | the special-request text combined with the needs message of the cage's litter, or with "" when the cage has no litter |
| Models.Dob | colony/models.py:268-279 | the manual date of birth if set, else the litter's birth date if the mouse has a litter, else none |
| Models.Mother | colony/models.py:280-291 | the manual mother if set, else the litter's mother, else none |
| Models.Father | colony/models.py:292-302 | the manual father if set, else the litter's father, else none |
| Models.MouseAge | colony/models.py:343-347 | an age exists exactly when the date of birth is known, and age + date of birth = today |
| Models.Progeny | colony/models.py:327-341 | an error exactly when the mouse has children both as a father and as a mother; otherwise the set of all its children |
| Models.FirstKnown | colony/models.py:124-131 | the index of the first known age: every earlier age is unknown and the one found is known |
| Models.CageAge | colony/models.py:124-131 | no age when no resident's age is known; otherwise the first known age, exactly when every later resident has that same age |
| Models.ContainsMotherOfThisLitter | colony/models.py:161-200 | the nested tests of contains_mother_of_this_litter; stated as one condition by ContainsMotherIff |
| Models.ContainsMotherIff | colony/models.py:161-200 | the cage contains its litter's mother iff it has a litter whose mother exists and is housed in this cage |
| Models.PupCount | colony/models.py:492-499 | the number of mice whose litter is this one; read back from the info text by the InfoReadsBack lemmas |
| Models.Info | colony/models.py:492-508 | the text starts with 'E' iff the litter is mated but unborn, and contains '@' iff it is born |
| Models.InfoReadsBackPups | colony/models.py:492-508 | before mating, the text is the pup count followed by " pups", and the count parses back |
| Models.InfoReadsBackEmbryonic | colony/models.py:492-508 | after mating and before birth, the days since mating parse back from the text after 'E' |
| Models.InfoReadsBackBorn | colony/models.py:492-508 | after birth, the pup count parses back from before "@P" and the age from after it |
| Text.IntToStringRoundTrip | colony/models.py:504-508 | the decimal text `%d` gives for any integer, negative ones included, reads back as that integer |
| Text.IntToStringInjective | colony/models.py:504-508 | different integers print differently |
| Text.ReadBackAround | colony/models.py:507-508 | two integers printed around a separator that cannot start a number both read back from the joined text |
| Models.BestSpace | colony/models.py:53-71 | the chosen index is a space that is closest to the middle, the first such on a tie, or -1 when there is no space |
| Models.CenterDistance | colony/models.py:63-64 | twice the distance of an index from the middle `len(s) / 2`, so true division needs no fractions; BestSpace minimises it |
| Models.NotesSplit | colony/models.py:53-87 | no split exactly when the notes are shorter than the line length or hold no space; otherwise a space closest to the middle |
| Models.NotesFirstHalf | colony/models.py:53-71 | unsplit notes go wholly into the first half; split notes give the text before the chosen space |
| Models.NotesSecondHalf | colony/models.py:73-87 | unsplit notes leave the second half empty; split notes give the text from the chosen space on, which starts with that space |
| Models.NotesHalvesJoin | colony/models.py:53-87 | the first half followed by the second half gives back the notes |
| Models.PlacedMouse | colony/models.py:417-422 | a mouse saved for the first time inside a litter is moved to the litter's breeding cage; nothing else changes |
| Models.LitterSaveAsWritten | colony/models.py:643-646 | as written, saving a litter never changes it |
| Models.LitterSaveAsWrittenKeepsDefault | colony/models.py:643-646 | a new litter keeps its default proprietor instead of taking its cage's |
| Models.LitterSave | colony/models.py:643-646 | a newly saved litter takes its breeding cage's proprietor; otherwise nothing changes |
| Models.RowsOfAppend | colony/views.py:1058-1069 | the rows of a mouse in appended tables are the rows in each part, in order |
| Models.WithoutKeepsOthers | colony/views.py:891-906 | deleting one mouse's rows leaves every other mouse's rows as they were |
| Models.SaveMouseRows | colony/models.py:417-422 | saving a new mouse under a taken name is an integrity error; otherwise the placed mouse is stored under its name |
| Models.DeleteMouseRows | colony/views.py:891-906 | deleting a mouse removes it and its association rows, leaves every other mouse's rows unchanged and keeps the tables consistent |
| Models.ColonyDb.SaveMouse | colony/models.py:417-422 | fails with an integrity error and changes nothing exactly when a new mouse's name is taken; otherwise stores the placed mouse; keeps the database consistent |
| Models.ColonyDb.DeleteMouse | colony/views.py:891-906 | the new state is the old one with the mouse and its rows removed; litters and cages unchanged |
| Models.ColonyDb.AddGeneAssoc | colony/views.py:1058-1062 | saving a gene row for an existing mouse appends it and keeps the database consistent |
| Models.ColonyDb.AddStrainAssoc | colony/views.py:1064-1069 | saving a strain row for an existing mouse appends it and keeps the database consistent |
| Models.ColonyDb.SaveLitter | colony/models.py:643-646 | stores the litter under its breeding cage with the corrected proprietor rule of LitterSave (see Findings); mice and rows unchanged |
| Breeding.StrainOfProgeny | colony/views.py:1071-1107 | an error "cannot deal with breeding hybrids" exactly when both parents have strains and one has several; no strain if either parent has none; the common strain with weight 1, or both strains with weights 1, 1; the lists have equal length |
| Breeding.PupPurity | colony/views.py:1015-1037 | pure wild type iff both parents are pure wild type and the progeny has one strain; pure wild type implies pure; pure iff the progeny has one strain and one of the four parent combinations holds |
| Breeding.PupNameInjective | colony/views.py:1040-1043 | different pup indices give different `<cage>-<i+1>` names |
| Breeding.NewPup | colony/views.py:1041-1049 | the pup is named `<cage>-<i+1>`, of unknown sex, born into the litter and housed in its breeding cage, with the litter's purity flags, and saving it does not move it |
| Breeding.NewPupLineage | colony/models.py:268-302 | a pup of a stored litter reads its date of birth, mother and father from that litter |
| Breeding.GeneRows | colony/views.py:1058-1062 | one `?/?` gene row per gene, in order |
| Breeding.StrainRows | colony/views.py:1064-1069 | one strain row per (strain, weight) pair of the progeny |
| Breeding.LitterPlan | colony/views.py:1001-1037 | fails exactly when the strain of the progeny fails; the pup genes are the distinct genes of mother and father, each once; purity and progeny as computed |
| Breeding.CreatePup | colony/views.py:1040-1069 | a taken name changes nothing (the integrity error is skipped); otherwise the pup is stored under its name and rows are only appended |
| Breeding.AddPupsUpTo | colony/views.py:1040-1069 | the pups of indices start .. n-1 attempted in turn; characterised by AddPupsKeys, AddPupsKeepsExisting, AddPupsCreates, AddPupsKeepsRows and AddPupsRows |
| Breeding.AddPupsValid | colony/views.py:1040-1069 | adding pups keeps every row pointing at an existing mouse |
| Breeding.AddPupsKeys | colony/views.py:1040-1056 | after adding pups, the mice are the old ones plus the names `<cage>-<i+1>` for the attempted indices |
| Breeding.AddPupsKeepsExisting | colony/views.py:1051-1056 | a mouse that already existed, including one whose name collides with a pup's, is unchanged |
| Breeding.AddPupsCreates | colony/views.py:1041-1056 | a free pup name gets the new pup of that index |
| Breeding.AddPupsKeepsRows | colony/views.py:1058-1069 | the gene and strain rows of existing mice are unchanged |
| Breeding.CreatePupRows | colony/views.py:1050-1069 | creating one pup appends rows for that pup's own name only, and none when the name is taken |
| Breeding.NoRowsBeforeCreation | colony/views.py:1040-1056 | a pup name that was free has no mouse and no rows before its own index is reached |
| Breeding.LaterPupKeepsRows | colony/views.py:1058-1069 | creating a later pup leaves the rows of an existing mouse unchanged |
| Breeding.LastPupRows | colony/views.py:1058-1069 | a pup created on a free name gets exactly the planned gene and strain rows |
| Breeding.AddPupsRows | colony/views.py:1058-1069 | a newly created pup has exactly the `?/?` gene rows of the plan's genes and the strain rows of the progeny |
| Breeding.RemovePupsValid | colony/views.py:891-906 | removing pups keeps every row pointing at an existing mouse |
| Breeding.RemovePupsUpTo | colony/views.py:893-906 | the pups of indices start .. n-1 deleted by name in turn, missing ones skipped; characterised by RemovePupsKeys, RemovePupsKeepsOthers and RemoveUndoesAdd |
| Breeding.RemovePupsKeys | colony/views.py:891-906 | after removal, the mice are the old ones minus the pup names of the removed indices; missing names are skipped |
| Breeding.RemovePupsKeepsOthers | colony/views.py:891-906 | a mouse not named like a removed pup keeps its record and its rows |
| Breeding.RemoveUndoesAdd | colony/views.py:891-906 | removing the pups just added over free names restores the mice and every old mouse's rows |
| Breeding.AddPupsToLitter | colony/views.py:999-1069 | fails with the plan's error and changes nothing, or the new state is the pups added from the current pup count to the target; litters and cages unchanged |
| Breeding.AddPupsInDb | colony/views.py:1040-1069 | the loop leaves the state the pups of indices start .. n-1 added in turn |
| Breeding.CreatePupInDb | colony/views.py:1041-1069 | creates the pup and its rows, or changes nothing when the name is taken |
| Breeding.AddGeneRowsInDb | colony/views.py:1058-1062 | the pup's `?/?` gene rows are appended in gene order; nothing else changes and the database stays consistent |
| Breeding.AddStrainRowsInDb | colony/views.py:1064-1069 | the pup's (strain, weight) rows are appended in order; nothing else changes and the database stays consistent |
| Breeding.ChangeNumberOfPups | colony/views.py:886-906 | more pups are added, fewer delete the surplus by name, an equal count changes nothing; the database stays consistent |
| Breeding.ChangePupCount | colony/views.py:886-906 | fails only when pups are to be added and the strain of the progeny fails; the same number of pups changes nothing |
| Mating.MatchingDobs | colony/views.py:526-533 | exactly the birth dates of the mother's litters with the same father and a known birth date |
| Mating.LatestDob | colony/views.py:533-534 | the result is one of the dates and no date is later |
| Mating.MatingDate | colony/views.py:526-540 | today when there is no matching litter; otherwise the birth date of a matching litter that is no earlier than any matching birth |
| Mating.MatingDateOrderFree | colony/views.py:526-540 | the date does not depend on the order of the litters |
| Census.IncidencesMembers | colony/views.py:365-371 | a (cage, geneset) pair is listed iff the cage is given and has that geneset |
| Census.AllGenesetsMembers | colony/views.py:365-371 | a geneset is collected iff some given cage has it |
| Census.GroupSpec | colony/views.py:381-387 | the grouping has an entry exactly for the genesets that occur, holding the cages that have it, in order |
| Census.CagesForMembers | colony/views.py:381-387 | a cage is grouped under a geneset iff the (cage, geneset) pair occurs |
| Census.UniqueGenesets | colony/views.py:365-371 | the loop yields the distinct genesets in order of first appearance |
| Census.GroupByGeneset | colony/views.py:381-387 | the loop yields the grouping of cages by geneset |
| Census.AddUniqueGenesets | colony/views.py:367-371 | the inner loop over one cage's genesets appends the new ones, in order |
| Census.AddGroups | colony/views.py:383-387 | the inner loop over one cage's genesets appends the cage to each geneset's group |
| Census.GenesetLeTotalPreorder | colony/views.py:373-375 | ordering by (first gene or "", length) is a total preorder |
| Census.SortGenesets | colony/views.py:373-375 | the sorted genesets are a permutation of the input |
| Census.SortGenesetsSorted | colony/views.py:373-375 | the sorted genesets are ordered by (first gene or "", length) |
| Census.DisplayName | colony/views.py:389-396 | "WT" for no gene, the gene for one, the genes joined by " x " otherwise |
| Census.CensusByGenotype | colony/views.py:364-396 | the rows are, for each sorted distinct geneset, its display name and its cages |
| Census.CensusGenesets | colony/views.py:365-375 | the distinct genesets of the cages, sorted; characterised by CensusGenesetsSpec |
| Census.CensusRows | colony/views.py:389-396 | one row per census geneset, with its display name and the cages having it |
| Census.CensusGenesetMet | colony/views.py:365-375 | every sorted census geneset is a geneset of some cage |
| Census.RowFromGroups | colony/views.py:389-396 | every such geneset has a group, and its row holds that group |
| Census.RowsFromGroups | colony/views.py:389-396 | the loop makes one row per sorted geneset, with its display name and its group |
| Census.CensusRowsFromGroups | colony/views.py:389-396 | rows built that way are exactly the census rows |
| Census.CensusGenesetsSpec | colony/views.py:365-375 | the census genesets have no duplicates, are sorted, and are exactly the genesets of the cages |
| Census.CensusCagesSound | colony/views.py:381-396 | every cage listed under a geneset has that geneset |
| Census.CensusCagesComplete | colony/views.py:381-396 | every cage with a geneset is listed under it |
| Forms.CleanCageName | colony/forms.py:58-62 | a validation error exactly when a cage of that name exists; otherwise the name unchanged |
| Forms.FirstOfEachNameNames | colony/forms.py:99-105 | keeping the first gene of each name keeps each name once, in order of first appearance |
| Forms.FirstOfEachNameKeeps | colony/forms.py:99-105 | only genes of the parents are kept |
| Forms.FirstOfEachNameSnoc | colony/forms.py:102-105 | a further gene is kept exactly when its name has not been collected |
| Forms.FirstOfEachName | colony/forms.py:99-105 | the parents' genes keeping the first of each name; characterised by FirstOfEachNameNames, FirstOfEachNameKeeps and FirstOfEachNameSnoc |
| Forms.CollectParentGenes | colony/forms.py:99-105 | the parallel name and type lists have equal length and hold the first gene of each name over father then mother |
| Forms.CollectGenesOf | colony/forms.py:102-105 | the loop over one parent's genes extends the lists as keeping the first gene of each name prescribes |
| Forms.CollectedNamesSpec | colony/forms.py:99-105 | the collected names hold each gene name of either parent exactly once and no other |
| Forms.CollectedTypesSpec | colony/forms.py:103-105 | each collected (name, type) pair at one index is a gene of one of the parents |
| Text.StrLtTotal | colony/forms.py:108-109 | Python's string order: two different strings are ordered one way or the other |
| Text.StrLtTransitive | colony/forms.py:108-109 | Python's string order is transitive |
| Forms.TypeNameLeTotalPreorder | colony/forms.py:108-109 | Python's order on (type, name) tuples is a total preorder |
| Sorting.SortBy | colony/forms.py:108-109 | the sort result is a permutation of its input and is ordered by the given total preorder |
| Forms.SortedPairs | colony/forms.py:108-109 | the sorted pairs are a permutation of the zipped (type, name) pairs |
| Forms.SortedGeneNames | colony/forms.py:108-109 | the names of the sorted (type, name) pairs; characterised by SortedGeneNamesSpec |
| Forms.SortedGeneNamesSpec | colony/forms.py:108-109 | the sorted names are a permutation of the collected names, ordered by (gene type, gene name) |
| Forms.ZygosityChoicesComplete | colony/forms.py:120-127 | every zygosity is offered exactly once |
| Forms.ResultKeyInjective | colony/forms.py:129-135 | different pups get different `result_<name>` keys |
| Forms.ResultFields | colony/forms.py:129-135 | one result field per pup, keyed `result_<name>`, labelled with the pup and offering the six zygosities in order |
| Forms.GenotypingFormFor | colony/forms.py:88-135 | the gene choices are the collected gene names; there is one result field per pup, keyed `result_<name>`, labelled with the pup and offering the six zygosities in order |

## Left out

- Cage-type classification and the rendering of genotype and strain text: their source is not part of this model.
- `have_same_single_gene`: its source is not part of this model, so it is the boolean parameter `sameSingleGene`.
- `Cage.relevant_genesets`: its source is not part of this model, so each cage's genesets are input data.
- The clock: `datetime.date.today()` is the parameter `today`, and `strftime('%m/%d')` is the function parameter `mmdd`.
- Breeding.LitterPlan: the pup gene rows follow the parents' genes in order of first appearance, mother then father; the database query order the source iterates in is not modelled.
- Models.DeleteMouseRows: deleting a mouse cascades only its gene and strain rows. Other cascades are not modelled: through the litter parent keys, which would delete litters and their pups, and through the `manual_father` and `manual_mother` keys (colony/models.py:252-255), which would delete every mouse naming the deleted one as a manual parent.
- Models.ColonyDb.SaveLitter: applies the corrected proprietor rule of the Findings row (Models.LitterSave), not the as-written one (Models.LitterSaveAsWritten), under which a new litter keeps its default proprietor.
- Breeding.ChangeNumberOfPups: the ValueError that get_strain_of_progeny raises for hybrid parents is returned as a failure value rather than propagated as an exception; in both, no pup has been created.
- Sorting.SortBy: proved sorted and a permutation. The stability of Python's `sorted` is not stated, so ties between equal keys are not pinned down.
- `make_mating_cage`: only the mating-date rule is modelled. Creating the cage and the litter and moving the parents are request handling.
- The wean, sack, summary and records views, `counts_by_person`, `current_litters`, the autocomplete views, the admin, the settings, URLs and migrations, and the analytics scripts: request plumbing, ORM queries, tables and plots.
- `Litter.days_since_mating` and `Litter.age`: one subtraction each, which appears inside `Models.Info`.
- Ordering of query results: tables are sequences in insertion order and maps keyed by name.

## Findings

| source | as written | input that shows it | evidently intended | confidence | as-written member | corrected member |
|---|---|---|---|---|---|---|
| colony/models.py:643-646 | the proprietor is copied only when `not self.pk`; a Litter's primary key is its breeding cage, so the guard is false whenever a breeding cage is set | a new litter in cage "C1" with the default proprietor, whose cage belongs to "alice": after saving, the proprietor is still the default | a newly created litter takes its breeding cage's proprietor | medium; not executed | Models.LitterSaveAsWrittenKeepsDefault | Models.LitterSave |
