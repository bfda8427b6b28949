// The mating-date rule of make_mating_cage (colony/views.py): a new mating
// cage of a mother and a father is dated by the latest birth among the
// mother's earlier litters with the same father, or else by today.
module Mating {
  import opened Models

  /** A previous litter of this pair whose birth date is known. */
  predicate Matches(l: Litter, mother: MouseName, father: MouseName) {
    l.mother == mother && l.father == father && l.dob.Some?
  }

  predicate HasMatch(litters: seq<Litter>, mother: MouseName, father: MouseName) {
    exists l :: l in litters && Matches(l, mother, father)
  }

  /** The birth dates of the matching litters, in order. */
  function MatchingDobs(litters: seq<Litter>, mother: MouseName, father: MouseName): (r: seq<Date>)
    ensures forall d :: d in r ==> exists l :: l in litters && Matches(l, mother, father) && l.dob.value == d
    ensures forall l :: l in litters && Matches(l, mother, father) ==> l.dob.value in r
  {
    if litters == [] then []
    else
      var init := MatchingDobs(litters[..|litters| - 1], mother, father);
      var last := litters[|litters| - 1];
      assert litters == litters[..|litters| - 1] + [last];
      if Matches(last, mother, father) then init + [last.dob.value] else init
  }

  /** The largest of a non-empty list of dates (latest("dob")). */
  function LatestDob(dobs: seq<Date>): (r: Date)
    requires dobs != []
    ensures r in dobs
    ensures forall k :: 0 <= k < |dobs| ==> dobs[k] <= r
  {
    var n := |dobs|;
    if n == 1 then dobs[0]
    else
      var init := dobs[..n - 1];
      var rest := LatestDob(init);
      assert forall k :: 0 <= k < n - 1 ==> init[k] == dobs[k];
      assert rest in dobs by {
        var k :| 0 <= k < n - 1 && init[k] == rest;
        assert dobs[k] == rest;
      }
      if dobs[n - 1] > rest then dobs[n - 1] else rest
  }

  /** The date_mated of the new litter. The source distinguishes a mother
      without any litters from one without a matching litter, and gives today
      in both cases. */
  function MatingDate(litters: seq<Litter>, mother: MouseName, father: MouseName, today: Date): (r: Date)
    ensures !HasMatch(litters, mother, father) ==> r == today
    ensures HasMatch(litters, mother, father) ==>
      && (exists l :: l in litters && Matches(l, mother, father) && l.dob.value == r)
      && (forall l :: l in litters && Matches(l, mother, father) ==> l.dob.value <= r)
  {
    var dobs := MatchingDobs(litters, mother, father);
    if dobs == [] then
      today
    else
      var r := LatestDob(dobs);
      assert forall d :: d in dobs ==> d <= r;
      r
  }

  /** The date does not depend on the order in which the litters are listed. */
  lemma MatingDateOrderFree(a: seq<Litter>, b: seq<Litter>, mother: MouseName, father: MouseName, today: Date)
    requires multiset(a) == multiset(b)
    ensures MatingDate(a, mother, father, today) == MatingDate(b, mother, father, today)
  {
    forall l ensures l in a <==> l in b {
      assert l in a <==> l in multiset(a);
      assert l in b <==> l in multiset(b);
    }
    var x, y := MatingDate(a, mother, father, today), MatingDate(b, mother, father, today);
    if HasMatch(a, mother, father) {
      var la :| la in a && Matches(la, mother, father) && la.dob.value == x;
      var lb :| lb in b && Matches(lb, mother, father) && lb.dob.value == y;
      assert x <= y && y <= x;
    }
  }
}
