// The litter husbandry scheduler (colony/models.py, Litter.needs_* and
// Litter.auto_needs_message) and the cage's combined needs message
// (Cage.auto_needs_message with Cage.get_special_request_message).
//
// "today" is a parameter, and the '%m/%d' rendering of a date is the
// parameter `mmdd`.
module Husbandry {
  import opened Wrappers
  import opened Text
  import opened Models

  /** One husbandry need: shown from `trigger` on, due on `target`,
      emphasised from `warn` on. */
  datatype Need = Need(message: string, trigger: Date, target: Date, warn: Date)

  /** A window whose dates come in the order trigger, target, warn. */
  predicate Ordered(n: Need) {
    n.trigger <= n.target <= n.warn
  }

  /** Neither a mating date nor a birth date: specify the mating date today. */
  function NeedsDateMated(l: Litter, today: Date): (r: Option<Need>)
    ensures r.None? <==> l.dateMated.Some? || l.dob.Some?
    ensures r.Some? ==> r.value == Need("specify date mated", today, today, today + 1) && Ordered(r.value)
  {
    if l.dateMated.Some? || l.dob.Some? then None
    else Some(Need("specify date mated", today, today, today + 1))
  }

  /** Mated but not yet born: check for pups 20 to 35 days after mating. */
  function NeedsPupCheck(l: Litter): (r: Option<Need>)
    ensures r.None? <==> l.dateMated.None? || l.dob.Some?
    ensures r.Some? ==> var m := l.dateMated.value;
      r.value == Need("pup check", m + 20, m + 25, m + 35) && Ordered(r.value)
  {
    if l.dateMated.None? || l.dob.Some? then None
    else
      var reference := l.dateMated.value;
      Some(Need("pup check", reference + 20, reference + 25, reference + 35))
  }

  /** Born but not toe-clipped: toe clip from birth, due at 7 days. */
  function NeedsToeClip(l: Litter): (r: Option<Need>)
    ensures r.None? <==> l.dob.None? || l.dateToeclipped.Some?
    ensures r.Some? ==> var b := l.dob.value;
      r.value == Need("toe clip", b, b + 7, b + 14) && Ordered(r.value)
  {
    if l.dob.None? || l.dateToeclipped.Some? then None
    else
      var reference := l.dob.value;
      Some(Need("toe clip", reference + 0, reference + 7, reference + 14))
  }

  /** Born but not toe-clipped: genotype from birth, due at 17 days. This rule
      is not consulted by AutoNeedsMessage. */
  function NeedsGenotype(l: Litter): (r: Option<Need>)
    ensures r.None? <==> l.dob.None? || l.dateToeclipped.Some?
    ensures r.Some? ==> var b := l.dob.value;
      r.value == Need("genotype", b, b + 17, b + 20) && Ordered(r.value)
  {
    if l.dob.None? || l.dateToeclipped.Some? then None
    else
      var reference := l.dob.value;
      Some(Need("genotype", reference + 0, reference + 17, reference + 20))
  }

  /** Born but not weaned: wean from 17 days, due and overdue at 20. */
  function NeedsWean(l: Litter): (r: Option<Need>)
    ensures r.None? <==> l.dob.None? || l.dateWeaned.Some?
    ensures r.Some? ==> var b := l.dob.value;
      r.value == Need("wean", b + 17, b + 20, b + 20) && Ordered(r.value)
  {
    if l.dob.None? || l.dateWeaned.Some? then None
    else
      var reference := l.dob.value;
      Some(Need("wean", reference + 17, reference + 20, reference + 20))
  }

  /** The needs consulted by auto_needs_message, in order (meth_l). */
  function LitterNeeds(l: Litter, today: Date): seq<Option<Need>> {
    [NeedsDateMated(l, today), NeedsPupCheck(l), NeedsToeClip(l), NeedsWean(l)]
  }

  /** A need is shown once it exists and its trigger date has come. */
  predicate Active(o: Option<Need>, today: Date) {
    o.Some? && o.value.trigger <= today
  }

  /** "<message> on <MM/DD of target>", in bold once the warn date has come. */
  function RenderNeed(n: Need, today: Date, mmdd: Date -> string): string {
    var text := n.message + " on " + mmdd(n.target);
    if n.warn <= today then "<b>" + text + "</b>" else text
  }

  /** The line a need contributes: none unless it is active. */
  function Emit(o: Option<Need>, today: Date, mmdd: Date -> string): seq<string> {
    if Active(o, today) then [RenderNeed(o.value, today, mmdd)] else []
  }

  /** The lines of the active needs, in the order the needs are listed. */
  function NeedLines(needs: seq<Option<Need>>, today: Date, mmdd: Date -> string): (r: seq<string>)
    ensures |r| <= |needs|
  {
    if needs == [] then []
    else NeedLines(needs[..|needs| - 1], today, mmdd) + Emit(needs[|needs| - 1], today, mmdd)
  }

  /** Litter.auto_needs_message. */
  method AutoNeedsMessage(l: Litter, today: Date, mmdd: Date -> string) returns (s: string)
    ensures s == Join("<br />", NeedLines(LitterNeeds(l, today), today, mmdd))
  {
    var results: seq<string> := [];
    var needs := LitterNeeds(l, today);
    for i := 0 to |needs|
      invariant results == NeedLines(needs[..i], today, mmdd)
    {
      assert needs[..i + 1][..i] == needs[..i];
      var res := needs[i];
      if res.None? {
        continue;
      }
      if res.value.trigger > today {
        continue;
      }
      var targetText := mmdd(res.value.target);
      var full := res.value.message + " on " + targetText;
      if res.value.warn <= today {
        results := results + ["<b>" + full + "</b>"];
      } else {
        results := results + [full];
      }
    }
    assert needs[..|needs|] == needs;
    s := Join("<br />", results);
  }

  /** The lines are those of the four consulted rules, each present exactly
      when it is active, in the fixed order date mated, pup check, toe clip,
      wean; the genotype rule never contributes. */
  lemma {:induction false} NeedLinesOfLitter(l: Litter, today: Date, mmdd: Date -> string)
    ensures NeedLines(LitterNeeds(l, today), today, mmdd) ==
      Emit(NeedsDateMated(l, today), today, mmdd) + Emit(NeedsPupCheck(l), today, mmdd)
      + Emit(NeedsToeClip(l), today, mmdd) + Emit(NeedsWean(l), today, mmdd)
  {
    var needs := LitterNeeds(l, today);
    var one, two, three := needs[..1], needs[..2], needs[..3];
    assert one[..0] == [] && two[..1] == one && three[..2] == two && needs[..3] == three;
    assert NeedLines(one, today, mmdd) == Emit(needs[0], today, mmdd);
    assert NeedLines(two, today, mmdd) == Emit(needs[0], today, mmdd) + Emit(needs[1], today, mmdd);
    assert NeedLines(three, today, mmdd) == NeedLines(two, today, mmdd) + Emit(needs[2], today, mmdd);
  }

  /** A line is emphasised exactly when the need's warn date has come. */
  lemma RenderNeedBold(n: Need, today: Date, mmdd: Date -> string)
    requires n.message != [] && n.message[0] != '<'
    ensures var r := RenderNeed(n, today, mmdd);
      (|r| >= 3 && r[..3] == "<b>") <==> n.warn <= today
  {
    var r := RenderNeed(n, today, mmdd);
    if n.warn > today {
      assert r[0] == n.message[0];
    }
  }

  /** The message is empty exactly when none of the four rules is active. */
  lemma AutoNeedsEmptyIff(l: Litter, today: Date, mmdd: Date -> string)
    ensures Join("<br />", NeedLines(LitterNeeds(l, today), today, mmdd)) == "" <==>
      !Active(NeedsDateMated(l, today), today) && !Active(NeedsPupCheck(l), today)
      && !Active(NeedsToeClip(l), today) && !Active(NeedsWean(l), today)
  {
    NeedLinesOfLitter(l, today, mmdd);
    var lines := NeedLines(LitterNeeds(l, today), today, mmdd);
    forall i | 0 <= i < |lines| ensures lines[i] != "" {
    }
    JoinEmptyIff("<br />", lines);
  }

  /** A litter mated on day D and not yet born, seen on day D + 22, shows only
      the pup check, due on D + 25, without emphasis. */
  lemma PupCheckDue(l: Litter, d: Date, mmdd: Date -> string)
    requires l.dateMated == Some(d) && l.dob.None?
    ensures Join("<br />", NeedLines(LitterNeeds(l, d + 22), d + 22, mmdd)) == "pup check on " + mmdd(d + 25)
  {
    NeedLinesOfLitter(l, d + 22, mmdd);
  }

  /** The same litter seen on day D + 40 shows the pup check in bold. */
  lemma PupCheckOverdue(l: Litter, d: Date, mmdd: Date -> string)
    requires l.dateMated == Some(d) && l.dob.None?
    ensures Join("<br />", NeedLines(LitterNeeds(l, d + 40), d + 40, mmdd)) == "<b>pup check on " + mmdd(d + 25) + "</b>"
  {
    var today := d + 40;
    NeedLinesOfLitter(l, today, mmdd);
    assert Emit(NeedsDateMated(l, today), today, mmdd) == [];
    var target := mmdd(d + 25);
    assert RenderNeed(NeedsPupCheck(l).value, today, mmdd) == "<b>" + ("pup check" + " on " + target) + "</b>";
    assert "<b>" + ("pup check" + " on " + target) == "<b>pup check on " + target;
    assert Emit(NeedsPupCheck(l), today, mmdd) == ["<b>pup check on " + mmdd(d + 25) + "</b>"];
    assert Emit(NeedsToeClip(l), today, mmdd) == [] && Emit(NeedsWean(l), today, mmdd) == [];
  }

  // ---------------------------------------------------------------------
  // Cage.get_special_request_message and Cage.auto_needs_message

  datatype SpecialRequest = SpecialRequest(requestee: Option<PersonName>, message: string, dateCompleted: Option<Date>)

  /** "<requestee>: <message>", in bold while open, struck through once
      completed; a missing requestee prints as "None". */
  function RequestLine(sr: SpecialRequest): (r: string)
    ensures |r| >= 3 && (r[..3] == "<b>" <==> sr.dateCompleted.None?)
  {
    var who := if sr.requestee.None? then "None" else sr.requestee.value;
    var text := who + ": " + sr.message;
    if sr.dateCompleted.None? then
      var r := "<b>" + text + "</b>";
      assert r[..3] == "<b>";
      r
    else
      var r := "<strike>" + text + "</strike>";
      assert r[1] == 's';
      r
  }

  function RequestLines(requests: seq<SpecialRequest>): (r: seq<string>)
    ensures |r| == |requests|
    ensures forall i :: 0 <= i < |requests| ==> r[i] == RequestLine(requests[i])
  {
    seq(|requests|, i requires 0 <= i < |requests| => RequestLine(requests[i]))
  }

  /** Cage.get_special_request_message. */
  method SpecialRequestMessage(requests: seq<SpecialRequest>) returns (s: string)
    ensures s == Join("<br>", RequestLines(requests))
  {
    var lines: seq<string> := [];
    for i := 0 to |requests|
      invariant lines == RequestLines(requests[..i])
    {
      lines := lines + [RequestLine(requests[i])];
    }
    assert requests[..|requests|] == requests;
    s := Join("<br>", lines);
  }

  /** The special-request text and the litter text, separated by a line
      break only when both are present. */
  function CombineMessages(srm: string, lanm: string): (r: string)
    ensures srm == "" ==> r == lanm
    ensures lanm == "" ==> r == srm
    ensures srm != "" && lanm != "" ==> r == srm + "<br />" + lanm
  {
    if srm != "" && lanm != "" then srm + "<br />" + lanm else srm + lanm
  }

  /** Cage.auto_needs_message: special requests, then the needs of the cage's
      litter if it has one. */
  method CageAutoNeedsMessage(cage: Cage, litters: map<CageName, Litter>, requests: seq<SpecialRequest>,
                              today: Date, mmdd: Date -> string) returns (s: string)
    ensures s == CombineMessages(Join("<br>", RequestLines(requests)),
      if cage.name in litters then Join("<br />", NeedLines(LitterNeeds(litters[cage.name], today), today, mmdd)) else "")
  {
    var srm := SpecialRequestMessage(requests);
    var lanm := "";
    if cage.name in litters {
      lanm := AutoNeedsMessage(litters[cage.name], today, mmdd);
    }
    s := CombineMessages(srm, lanm);
  }
}
