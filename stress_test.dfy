/** The food-insecurity stress test: a household profile and a list of
    stressful life events, each with an adjusted odds ratio, multiplied into
    the baseline odds and turned back into a probability, then classified
    into one of five messages. */
module StressTest {
  import opened Wrappers

  // ---------------------------------------------------------------------------
  // Tables
  // ---------------------------------------------------------------------------

  /** Population prevalence used as the baseline probability. */
  const BaseProbability: real := 0.052

  /** The baseline odds `p / (1 - p)`. */
  const BaseOdds: real := BaseProbability / (1.0 - BaseProbability)

  /** The four profile categories, the `data-cat` values of the profile buttons. */
  datatype Category = Housing | Income | Education | Family

  /** Adjusted odds ratio of each profile value, per category, in
      declaration order. */
  function FactorTable(cat: Category): seq<(string, real)>
  {
    match cat
    case Housing   => [("owner", 1.0), ("renter", 3.08)]
    case Income    => [("high", 1.0), ("low", 2.70)]
    case Education => [("hs", 1.0), ("degree", 0.43)]
    case Family    => [("single", 1.0), ("couple", 0.51)]
  }

  /** The ratio stored under `key`, or `None`. */
  function FindRatio(table: seq<(string, real)>, key: string): Option<real>
  {
    if table == [] then None
    else if table[0].0 == key then Some(table[0].1)
    else FindRatio(table[1..], key)
  }

  /** The lookup finds nothing exactly when no entry has the key. */
  lemma {:induction false} FindRatioMiss(table: seq<(string, real)>, key: string)
    ensures FindRatio(table, key).None? <==> forall i :: 0 <= i < |table| ==> table[i].0 != key
  {
    if table != [] {
      FindRatioMiss(table[1..], key);
      assert forall i :: 1 <= i < |table| ==> table[i] == table[1..][i - 1];
    }
  }

  lemma {:induction false} FindRatioPositive(table: seq<(string, real)>, key: string)
    requires forall i :: 0 <= i < |table| ==> table[i].1 > 0.0
    ensures FindRatio(table, key).Some? ==> FindRatio(table, key).value > 0.0
  {
    if table != [] && table[0].0 != key {
      FindRatioPositive(table[1..], key);
    }
  }

  datatype Event = Event(id: string, caption: string, aor: real)

  /** The `EVENTS` object, its entries in declaration order. The `desc`
      text of an entry is never read by the script and is not kept. */
  const EventTable: seq<Event> := [
    Event("job_loss", "Lost Job", 2.48),
    Event("worsening_finances", "Financial Crisis", 7.25),
    Event("illness", "Serious Illness", 2.34),
    Event("crime", "Victim of Crime", 2.27),
    Event("divorce", "Divorce", 1.12)
  ]

  /** The entry stored under `id`, or `None` when no entry has that id. */
  function FindEvent(table: seq<Event>, id: string): Option<Event>
  {
    if table == [] then None
    else if table[0].id == id then Some(table[0])
    else FindEvent(table[1..], id)
  }

  /** `EVENTS[id]`. */
  function LookupEvent(id: string): Option<Event>
  {
    FindEvent(EventTable, id)
  }

  predicate Known(id: string)
  {
    LookupEvent(id).Some?
  }

  /** Lookups by the five button ids find their entries, and an id outside
      the table finds nothing. */
  lemma EventTableFacts()
    ensures Known("job_loss") && Known("worsening_finances") && Known("illness")
      && Known("crime") && Known("divorce")
    ensures LookupEvent("divorce") == Some(EventTable[4]) && EventTable[4].aor == 1.12
    ensures !Known("promotion")
  {
  }

  /** A found entry is an entry of the table with that id. */
  lemma {:induction false} FindEventFinds(table: seq<Event>, id: string)
    requires FindEvent(table, id).Some?
    ensures FindEvent(table, id).value in table && FindEvent(table, id).value.id == id
  {
    if table[0].id != id {
      FindEventFinds(table[1..], id);
    }
  }

  /** Every known event raises the odds. */
  lemma KnownEventRaisesOdds(id: string)
    requires Known(id)
    ensures LookupEvent(id).value.aor > 1.0
  {
    FindEventFinds(EventTable, id);
  }

  /** `FACTORS[cat][val]`: `None` for a value the category does not list. */
  function Factor(cat: Category, val: string): (f: Option<real>)
    ensures f.Some? ==> f.value > 0.0
  {
    FindRatioPositive(FactorTable(cat), val);
    FindRatio(FactorTable(cat), val)
  }

  /** A profile value finds nothing exactly when its category does not list it. */
  lemma FactorMissIff(cat: Category, val: string)
    ensures Factor(cat, val).None? <==> forall i :: 0 <= i < |FactorTable(cat)| ==> FactorTable(cat)[i].0 != val
  {
    FindRatioMiss(FactorTable(cat), val);
  }

  /** Lookups of the profile table: every listed value finds its ratio, the
      four reference values their ratio 1, and a value of one category is
      not found under another. */
  lemma FactorTableFacts()
    ensures Factor(Housing, "renter") == Some(3.08) && Factor(Income, "low") == Some(2.70)
    ensures Factor(Education, "degree") == Some(0.43) && Factor(Family, "couple") == Some(0.51)
    ensures Factor(Housing, "owner") == Some(1.0) && Factor(Income, "high") == Some(1.0)
    ensures Factor(Education, "hs") == Some(1.0) && Factor(Family, "single") == Some(1.0)
    ensures Factor(Housing, "low") == None && Factor(Income, "degree") == None
    ensures Factor(Education, "couple") == None && Factor(Family, "renter") == None
  {
  }

  /** Exactly the five ids of the event buttons are entries of the table. */
  lemma KnownIds(id: string)
    ensures Known(id) <==> id in {"job_loss", "worsening_finances", "illness", "crime", "divorce"}
  {
    var t := EventTable;
    assert FindEvent(t, id) == if id == "job_loss" then Some(t[0]) else FindEvent(t[1..], id);
    assert FindEvent(t[1..], id) == if id == "worsening_finances" then Some(t[1]) else FindEvent(t[2..], id);
    assert FindEvent(t[2..], id) == if id == "illness" then Some(t[2]) else FindEvent(t[3..], id);
    assert FindEvent(t[3..], id) == if id == "crime" then Some(t[3]) else FindEvent(t[4..], id);
    assert FindEvent(t[4..], id) == if id == "divorce" then Some(t[4]) else FindEvent(t[5..], id);
    assert t[5..] == [];
  }

  /** `EVENTS[id].aor`: found for the listed ids (`KnownIds` names them),
      and then above 1. */
  function EventAor(id: string): (f: Option<real>)
    ensures f.Some? <==> Known(id)
    ensures f.Some? ==> f.value > 1.0
  {
    match LookupEvent(id)
    case Some(e) =>
      KnownEventRaisesOdds(id);
      Some(e.aor)
    case None => None
  }

  /** The `if (EVENTS[evtId]) multiplier *= EVENTS[evtId].aor` step: the
      odds ratio of a listed event, 1 for any other id. */
  function EventFactor(id: string): (r: real)
    ensures r >= 1.0
    ensures r == 1.0 <==> !Known(id)
  {
    match EventAor(id)
    case Some(aor) => aor
    case None => 1.0
  }

  /** The `if (x) multiplier *= x` guard of a profile factor: a missing or
      zero factor is skipped, so the guard never zeroes the multiplier, and
      a positive factor is applied as it is. */
  function Applied(f: Option<real>): (r: real)
    ensures r != 0.0
    ensures f.Some? && f.value > 0.0 ==> r == f.value
  {
    if f.Some? && f.value != 0.0 then f.value else 1.0
  }

  // ---------------------------------------------------------------------------
  // Multiplier and probability
  // ---------------------------------------------------------------------------

  datatype Profile = Profile(housing: string, income: string, education: string, family: string)

  /** The profile the page starts with. */
  const InitialProfile := Profile("owner", "high", "hs", "single")

  /** The product of the four profile factors, each applied only when listed. */
  function ProfileMultiplier(p: Profile): (m: real)
    ensures m > 0.0
  {
    var h := Applied(Factor(Housing, p.housing));
    var i := Applied(Factor(Income, p.income));
    var e := Applied(Factor(Education, p.education));
    var f := Applied(Factor(Family, p.family));
    assert h * i > 0.0 && h * i * e > 0.0;
    h * i * e * f
  }

  /** The profile multiplier as `updateSimulation` builds it, left to right from 1. */
  lemma ProfileMultiplierFromOne(p: Profile)
    ensures ProfileMultiplier(p)
      == 1.0 * Applied(Factor(Housing, p.housing)) * Applied(Factor(Income, p.income))
         * Applied(Factor(Education, p.education)) * Applied(Factor(Family, p.family))
  {
  }

  /** The product of a list of factors. */
  function Prod(fs: seq<real>): real
  {
    if fs == [] then 1.0 else fs[0] * Prod(fs[1..])
  }

  lemma ProductAssoc(x: real, y: real, z: real)
    ensures x * (y * z) == (x * y) * z
  {
  }

  lemma {:induction false} ProdAppend(a: seq<real>, b: seq<real>)
    ensures Prod(a + b) == Prod(a) * Prod(b)
  {
    if a == [] {
      assert a + b == b;
    } else {
      assert (a + b)[1..] == a[1..] + b;
      ProdAppend(a[1..], b);
      ProductAssoc(a[0], Prod(a[1..]), Prod(b));
    }
  }

  lemma ProdSingle(x: real)
    ensures Prod([x]) == x
  {
    assert [x][1..] == [];
  }

  lemma {:induction false} ProdAtLeastOne(fs: seq<real>)
    requires forall i :: 0 <= i < |fs| ==> fs[i] >= 1.0
    ensures Prod(fs) >= 1.0
  {
    if fs != [] {
      ProdAtLeastOne(fs[1..]);
      assert fs[0] * Prod(fs[1..]) >= 1.0 * Prod(fs[1..]);
    }
  }

  /** The factor each event contributes: its odds ratio, or 1 when unknown. */
  function EventFactors(events: seq<string>): (fs: seq<real>)
    ensures |fs| == |events|
    ensures forall i :: 0 <= i < |events| ==> fs[i] == EventFactor(events[i])
  {
    seq(|events|, i requires 0 <= i < |events| => EventFactor(events[i]))
  }

  /** No event lowers the odds. */
  lemma EventFactorsAtLeastOne(events: seq<string>)
    ensures forall i :: 0 <= i < |events| ==> EventFactors(events)[i] >= 1.0
  {
    forall i | 0 <= i < |events|
      ensures EventFactors(events)[i] >= 1.0
    {
      if Known(events[i]) {
        KnownEventRaisesOdds(events[i]);
      }
    }
  }

  lemma EventFactorsAppend(a: seq<string>, b: seq<string>)
    ensures EventFactors(a + b) == EventFactors(a) + EventFactors(b)
  {
  }

  /** The product of the odds ratios of the known events, unknown ids skipped. */
  function EventsProduct(events: seq<string>): (m: real)
    ensures m >= 1.0
  {
    EventFactorsAtLeastOne(events);
    ProdAtLeastOne(EventFactors(events));
    Prod(EventFactors(events))
  }

  /** The composite multiplier of a profile and its active events. */
  function Multiplier(p: Profile, events: seq<string>): (m: real)
    ensures m > 0.0
  {
    ProfileMultiplier(p) * EventsProduct(events)
  }

  /** The product over a concatenation is the product of the products. */
  lemma EventsProductAppend(a: seq<string>, b: seq<string>)
    ensures EventsProduct(a + b) == EventsProduct(a) * EventsProduct(b)
  {
    EventFactorsAppend(a, b);
    ProdAppend(EventFactors(a), EventFactors(b));
  }

  /** A single event contributes its applied odds ratio. */
  lemma EventsProductSingle(id: string)
    ensures EventsProduct([id]) == EventFactor(id)
  {
    var fs := EventFactors([id]);
    assert fs == [EventFactor(id)];
    ProdSingle(EventFactor(id));
  }

  /** Extending a prefix by one event multiplies in that event's factor. */
  lemma EventsProductSnoc(xs: seq<string>, i: int)
    requires 0 <= i < |xs|
    ensures EventsProduct(xs[..i + 1]) == EventsProduct(xs[..i]) * EventFactor(xs[i])
  {
    assert xs[..i + 1] == xs[..i] + [xs[i]];
    EventsProductAppend(xs[..i], [xs[i]]);
    EventsProductSingle(xs[i]);
  }

  /** One more event of the list multiplies the running multiplier by its factor. */
  lemma RunningMultiplierStep(pm: real, xs: seq<string>, i: int)
    requires 0 <= i < |xs|
    ensures pm * EventsProduct(xs[..i + 1]) == (pm * EventsProduct(xs[..i])) * EventFactor(xs[i])
  {
    EventsProductSnoc(xs, i);
    ProductAssoc(pm, EventsProduct(xs[..i]), EventFactor(xs[i]));
  }

  /** The multiplier does not depend on the order of the events. */
  lemma EventsProductSwap(a: seq<string>, b: seq<string>)
    ensures EventsProduct(a + b) == EventsProduct(b + a)
  {
    EventsProductAppend(a, b);
    EventsProductAppend(b, a);
  }

  /** Odds to probability: `o / (1 + o)` with `o = BASE_ODDS * m`. */
  function Probability(m: real): (p: real)
    requires BaseOdds * m != -1.0
  {
    var odds := BaseOdds * m;
    odds / (1.0 + odds)
  }

  /** Probability to odds, the inverse conversion. */
  function OddsOf(p: real): real
    requires p != 1.0
  {
    p / (1.0 - p)
  }

  /** A non-negative multiplier gives a probability in [0, 1). */
  lemma ProbabilityBounds(m: real)
    requires m >= 0.0
    ensures 0.0 <= Probability(m) < 1.0
    ensures m > 0.0 ==> Probability(m) > 0.0
  {
    var odds := BaseOdds * m;
    assert odds >= 0.0;
    var q := odds / (1.0 + odds);
    assert q * (1.0 + odds) == odds;
    assert q * (1.0 + odds) < 1.0 * (1.0 + odds);
  }

  /** The probability strictly increases with the multiplier. */
  lemma ProbabilityIncreasing(m1: real, m2: real)
    requires 0.0 <= m1 < m2
    ensures Probability(m1) < Probability(m2)
  {
    var o1 := BaseOdds * m1;
    var o2 := BaseOdds * m2;
    assert 0.0 <= o1 < o2;
    // o1 / (1 + o1) < o2 / (1 + o2)  <==>  o1 (1 + o2) < o2 (1 + o1)  <==>  o1 < o2
    assert o1 * (1.0 + o2) < o2 * (1.0 + o1);
  }

  /** Turning the probability back into odds gives the multiplied odds. */
  lemma OddsRoundTrip(m: real)
    requires m >= 0.0
    ensures Probability(m) != 1.0
    ensures OddsOf(Probability(m)) == BaseOdds * m
  {
    ProbabilityBounds(m);
    var o := BaseOdds * m;
    var p := o / (1.0 + o);
    assert 1.0 - p == 1.0 / (1.0 + o);
  }

  /** A multiplier of 1 reproduces the baseline probability. */
  lemma NeutralMultiplierIsBaseline()
    ensures Probability(1.0) == BaseProbability
  {
    assert 1.0 + BaseOdds == 1.0 / (1.0 - BaseProbability);
  }

  // ---------------------------------------------------------------------------
  // Rounding and the message
  // ---------------------------------------------------------------------------

  /** `parseFloat(x.toFixed(1))`: the nearest multiple of 0.1, ties away
      from zero (the magnitude is rounded and the sign put back). */
  function Round1(x: real): (r: real)
    ensures -0.05 <= r - x <= 0.05
    ensures x >= 0.0 ==> r >= 0.0
    ensures r * 10.0 == (r * 10.0).Floor as real
  {
    if x < 0.0 then
      var m := RoundMagnitude(-x);
      NegatedTenths(m);
      -m
    else RoundMagnitude(x)
  }

  /** The negation of a whole number of tenths is one too. */
  lemma NegatedTenths(m: real)
    requires m * 10.0 == (m * 10.0).Floor as real
    ensures -m * 10.0 == (-m * 10.0).Floor as real
  {
    var n := (m * 10.0).Floor;
    assert -m * 10.0 == (-n) as real;
  }

  /** The rounding of a non-negative number, half-way cases rounded up. */
  function RoundMagnitude(y: real): (r: real)
    requires y >= 0.0
    ensures -0.05 < r - y <= 0.05 && r >= 0.0
    ensures r * 10.0 == (r * 10.0).Floor as real
  {
    var n := (y * 10.0 + 0.5).Floor;
    assert n as real <= y * 10.0 + 0.5 < n as real + 1.0;
    (n as real) / 10.0
  }

  /** The labels of the events, in list order; `None` when an id is unknown,
      where the label lookup would throw. */
  function Labels(events: seq<string>): (ls: Option<seq<string>>)
    ensures ls.Some? <==> forall i :: 0 <= i < |events| ==> Known(events[i])
    ensures ls.Some? ==>
      |ls.value| == |events| && forall i :: 0 <= i < |events| ==> ls.value[i] == LookupEvent(events[i]).value.caption
  {
    if events == [] then Some([])
    else
      match LookupEvent(events[0])
      case None => None
      case Some(e) =>
        match Labels(events[1..])
        case None =>
          var i :| 0 <= i < |events[1..]| && !Known(events[1..][i]);
          assert !Known(events[i + 1]);
          None
        case Some(rest) =>
          assert forall i :: 1 <= i < |events| ==> events[i] == events[1..][i - 1];
          Some([e.caption] + rest)
  }

  /** `labels.join(sep)`. */
  function Join(ls: seq<string>, sep: string): string
  {
    if ls == [] then "" else if |ls| == 1 then ls[0] else ls[0] + sep + Join(ls[1..], sep)
  }

  /** The five messages; the event messages carry the joined event labels. */
  datatype Verdict =
    | StableBaseline
    | StructuralVulnerability
    | CriticalRisk(eventsText: string)
    | HighImpact(eventsText: string)
    | Resilience(eventsText: string)

  /** `updateMessage`: no events are judged on the rounded percentage alone;
      with events, a rounded percentage above 50 is critical, then a
      multiplier above 5 is high impact. `None` where an unknown event id
      makes the label lookup fail. */
  function Classify(events: seq<string>, numPercent: real, multiplier: real): (v: Option<Verdict>)
    ensures v.None? <==> exists i :: 0 <= i < |events| && !Known(events[i])
    ensures events == [] ==> v.Some? && (v.value == StableBaseline <==> numPercent < 6.0)
    ensures v.Some? && events != [] ==> !v.value.StableBaseline? && !v.value.StructuralVulnerability?
  {
    if events == [] then
      Some(if numPercent < 6.0 then StableBaseline else StructuralVulnerability)
    else
      match Labels(events)
      case None => None
      case Some(ls) =>
        var text := Join(ls, " + ");
        Some(if numPercent > 50.0 then CriticalRisk(text)
             else if multiplier > 5.0 then HighImpact(text)
             else Resilience(text))
  }

  /** With no events, the baseline message is shown exactly when the
      probability is below 5.95 %, the point where the one-decimal
      percentage reaches 6.0. */
  lemma BaselineIff(p: real, m: real)
    requires p >= 0.0
    ensures Classify([], Round1(p * 100.0), m) ==
      Some(if p < 0.0595 then StableBaseline else StructuralVulnerability)
  {
    var n := (p * 100.0 * 10.0 + 0.5).Floor;
    assert Round1(p * 100.0) == (n as real) / 10.0;
    assert (n as real) / 10.0 < 6.0 <==> n < 60;
  }

  /** With known events, the critical message is shown exactly when the
      probability is at least 50.05 %, the point where the one-decimal
      percentage exceeds 50.0; below it, a multiplier above 5 decides
      between high impact and resilience. */
  lemma CriticalIff(events: seq<string>, p: real, m: real)
    requires p >= 0.0
    requires events != [] && forall i :: 0 <= i < |events| ==> Known(events[i])
    ensures Classify(events, Round1(p * 100.0), m).Some?
    ensures Classify(events, Round1(p * 100.0), m).value.CriticalRisk? <==> p >= 0.5005
    ensures Classify(events, Round1(p * 100.0), m).value.HighImpact? <==> p < 0.5005 && m > 5.0
    ensures Classify(events, Round1(p * 100.0), m).value.Resilience? <==> p < 0.5005 && m <= 5.0
  {
    var n := (p * 100.0 * 10.0 + 0.5).Floor;
    assert Round1(p * 100.0) == (n as real) / 10.0;
    assert (n as real) / 10.0 > 50.0 <==> n > 500;
  }

  // ---------------------------------------------------------------------------
  // The event list
  // ---------------------------------------------------------------------------

  /** No id occurs twice. */
  predicate NoDuplicates(xs: seq<string>)
  {
    forall i, j :: 0 <= i < j < |xs| ==> xs[i] != xs[j]
  }

  /** `xs.indexOf(x)`: the first position of `x`, or -1. */
  function IndexOf(xs: seq<string>, x: string): (i: int)
    ensures -1 <= i < |xs|
    ensures i == -1 <==> x !in xs
    ensures i >= 0 ==> xs[i] == x && x !in xs[..i]
  {
    if xs == [] then -1
    else if xs[0] == x then 0
    else
      var j := IndexOf(xs[1..], x);
      if j == -1 then -1
      else
        assert xs[..j + 1] == [xs[0]] + xs[1..][..j];
        j + 1
  }

  /** `toggleEvent`'s effect on the list: remove the first occurrence of
      `id` (`splice(index, 1)`), or append it when absent (`push`). */
  function Toggled(xs: seq<string>, id: string): seq<string>
  {
    var i := IndexOf(xs, id);
    if i == -1 then xs + [id] else xs[..i] + xs[i + 1..]
  }

  /** Deleting position `i` of a list without duplicates removes exactly
      the id stored there. */
  lemma DeleteAt(xs: seq<string>, i: int)
    requires NoDuplicates(xs) && 0 <= i < |xs|
    ensures forall y :: y in xs[..i] + xs[i + 1..] <==> y in xs && y != xs[i]
    ensures NoDuplicates(xs[..i] + xs[i + 1..])
  {
    var t := xs[..i] + xs[i + 1..];
    assert |t| == |xs| - 1;
    assert forall k :: 0 <= k < i ==> t[k] == xs[k];
    assert forall k :: i <= k < |t| ==> t[k] == xs[k + 1];
    forall y
      ensures y in t <==> y in xs && y != xs[i]
    {
      if y in t {
        var k :| 0 <= k < |t| && t[k] == y;
        if k < i { assert xs[k] == y; } else { assert xs[k + 1] == y; }
      }
      if y in xs && y != xs[i] {
        var k :| 0 <= k < |xs| && xs[k] == y;
        if k < i { assert t[k] == y; } else { assert t[k - 1] == y; }
      }
    }
  }

  /** Appending an absent id keeps the list free of duplicates. */
  lemma AppendFresh(xs: seq<string>, id: string)
    requires NoDuplicates(xs) && id !in xs
    ensures NoDuplicates(xs + [id])
  {
    var t := xs + [id];
    forall i, j | 0 <= i < j < |t|
      ensures t[i] != t[j]
    {
      if j == |xs| {
        assert t[i] == xs[i];
      } else {
        assert t[i] == xs[i] && t[j] == xs[j];
      }
    }
  }

  /** Toggling flips the membership of `id`, leaves every other id's
      membership alone and never creates a duplicate. */
  lemma ToggleFlips(xs: seq<string>, id: string)
    requires NoDuplicates(xs)
    ensures id in Toggled(xs, id) <==> id !in xs
    ensures forall y :: y != id ==> (y in Toggled(xs, id) <==> y in xs)
    ensures NoDuplicates(Toggled(xs, id))
  {
    var i := IndexOf(xs, id);
    if i == -1 {
      AppendFresh(xs, id);
    } else {
      DeleteAt(xs, i);
    }
  }

  /** Toggling an absent id twice restores the list exactly. */
  lemma ToggleTwiceAbsent(xs: seq<string>, id: string)
    requires id !in xs
    ensures Toggled(Toggled(xs, id), id) == xs
  {
    var t := xs + [id];
    assert IndexOf(t, id) == |xs| by {
      assert t[..|xs|] == xs;
    }
    assert t[..|xs|] == xs;
  }

  lemma ProductSwap(x: real, y: real, z: real)
    ensures x * y * z == x * z * y
  {
  }

  /** Swapping two tail segments keeps the ids and the product. */
  lemma SwapSegments(a: seq<string>, b: seq<string>, c: seq<string>)
    ensures EventsProduct(a + b + c) == EventsProduct(a + c + b)
  {
    var pa, pb, pc := EventsProduct(a), EventsProduct(b), EventsProduct(c);
    assert EventsProduct(a + b + c) == pa * pb * pc by {
      EventsProductAppend(a + b, c);
      EventsProductAppend(a, b);
    }
    assert EventsProduct(a + c + b) == pa * pc * pb by {
      EventsProductAppend(a + c, b);
      EventsProductAppend(a, c);
    }
    ProductSwap(pa, pb, pc);
  }

  /** Toggling a present id twice moves it to the end of the list. */
  lemma ToggleTwiceMovesToEnd(xs: seq<string>, id: string)
    requires NoDuplicates(xs) && id in xs
    ensures var i := IndexOf(xs, id);
      && xs == xs[..i] + [id] + xs[i + 1..]
      && Toggled(Toggled(xs, id), id) == xs[..i] + xs[i + 1..] + [id]
  {
    var i := IndexOf(xs, id);
    var t := xs[..i] + xs[i + 1..];
    assert Toggled(xs, id) == t;
    assert id !in t by {
      NotAfter(xs, i);
    }
    ToggledAbsent(t, id);
    SplitAt(xs, i);
  }

  lemma ToggledAbsent(xs: seq<string>, id: string)
    requires id !in xs
    ensures Toggled(xs, id) == xs + [id]
  {
  }

  lemma SplitAt(xs: seq<string>, i: int)
    requires 0 <= i < |xs|
    ensures xs == xs[..i] + [xs[i]] + xs[i + 1..]
  {
  }

  /** Without duplicates, an id does not occur again after its position. */
  lemma NotAfter(xs: seq<string>, i: int)
    requires NoDuplicates(xs) && 0 <= i < |xs|
    ensures xs[i] !in xs[i + 1..]
  {
    var rest := xs[i + 1..];
    forall k | 0 <= k < |rest|
      ensures rest[k] != xs[i]
    {
      assert rest[k] == xs[i + 1 + k];
    }
  }

  /** Toggling a present id twice keeps the same ids, so the same
      multiplier, but the labels come out in another order. */
  lemma ToggleTwicePresent(p: Profile, xs: seq<string>, id: string)
    requires NoDuplicates(xs) && id in xs
    ensures var i := IndexOf(xs, id);
      Toggled(Toggled(xs, id), id) == xs[..i] + xs[i + 1..] + [id]
    ensures multiset(Toggled(Toggled(xs, id), id)) == multiset(xs)
    ensures Multiplier(p, Toggled(Toggled(xs, id), id)) == Multiplier(p, xs)
  {
    var i := IndexOf(xs, id);
    var a, b := xs[..i], xs[i + 1..];
    var t := Toggled(Toggled(xs, id), id);
    ToggleTwiceMovesToEnd(xs, id);
    assert t == a + b + [id] && xs == a + [id] + b;
    assert multiset(t) == multiset(xs) by {
      assert multiset(a + b + [id]) == multiset(a + [id] + b);
    }
    assert EventsProduct(t) == EventsProduct(xs) by {
      SwapSegments(a, b, [id]);
    }
    SameEventsSameMultiplier(p, t, xs);
  }

  lemma SameEventsSameMultiplier(p: Profile, xs: seq<string>, ys: seq<string>)
    requires EventsProduct(xs) == EventsProduct(ys)
    ensures Multiplier(p, xs) == Multiplier(p, ys)
  {
  }

  /** Adding an event multiplies the events' product by its factor. */
  lemma AddEventFactor(xs: seq<string>, id: string)
    requires id !in xs
    ensures EventsProduct(Toggled(xs, id)) == EventsProduct(xs) * EventFactor(id)
  {
    assert Toggled(xs, id) == xs + [id];
    EventsProductAppend(xs, [id]);
    EventsProductSingle(id);
  }

  /** An id the table does not know leaves the multiplier unchanged. */
  lemma UnknownEventIgnored(p: Profile, xs: seq<string>, u: string)
    requires !Known(u)
    ensures Multiplier(p, xs + [u]) == Multiplier(p, xs)
  {
    EventsProductAppend(xs, [u]);
    EventsProductSingle(u);
    assert EventsProduct(xs + [u]) == EventsProduct(xs);
    SameEventsSameMultiplier(p, xs + [u], xs);
  }

  /** Toggling on a known event multiplies the composite multiplier by its
      odds ratio, so the probability strictly rises. */
  lemma AddingEventRaisesRisk(p: Profile, xs: seq<string>, id: string)
    requires Known(id) && id !in xs
    ensures Multiplier(p, Toggled(xs, id)) == Multiplier(p, xs) * LookupEvent(id).value.aor
    ensures Probability(Multiplier(p, xs)) < Probability(Multiplier(p, Toggled(xs, id)))
  {
    var aor := LookupEvent(id).value.aor;
    AddingEventMultiplies(p, xs, id);
    KnownEventRaisesOdds(id);
    ProbabilityScaledUp(Multiplier(p, xs), aor, Multiplier(p, Toggled(xs, id)));
  }

  /** Multiplying a positive multiplier by a ratio above 1 raises the probability. */
  lemma ProbabilityScaledUp(m: real, a: real, m': real)
    requires m > 0.0 && a > 1.0 && m' == m * a
    ensures Probability(m) < Probability(m')
  {
    ScaleUp(m, a);
    ProbabilityIncreasing(m, m');
  }

  lemma AddingEventMultiplies(p: Profile, xs: seq<string>, id: string)
    requires Known(id) && id !in xs
    ensures Multiplier(p, Toggled(xs, id)) == Multiplier(p, xs) * LookupEvent(id).value.aor
  {
    var aor := LookupEvent(id).value.aor;
    var pm, ep, ep' := ProfileMultiplier(p), EventsProduct(xs), EventsProduct(Toggled(xs, id));
    assert ep' == ep * aor by {
      AddEventFactor(xs, id);
      assert EventFactor(id) == aor;
    }
    ScaledProduct(pm, ep, aor, ep');
  }

  lemma ScaledProduct(pm: real, ep: real, a: real, ep': real)
    requires ep' == ep * a
    ensures pm * ep' == (pm * ep) * a
  {
    ProductAssoc(pm, ep, a);
  }

  lemma ScaleUp(m: real, a: real)
    requires m > 0.0 && a > 1.0
    ensures m < m * a
  {
  }

  /** The page as it first loads: multiplier 1, the baseline probability of
      5.2 %, and the stable-baseline message. */
  lemma InitialStateIsBaseline()
    ensures Multiplier(InitialProfile, []) == 1.0
    ensures Probability(1.0) == BaseProbability
    ensures Round1(BaseProbability * 100.0) == 5.2
    ensures Classify([], Round1(BaseProbability * 100.0), 1.0) == Some(StableBaseline)
  {
    NeutralMultiplierIsBaseline();
    assert (BaseProbability * 100.0 * 10.0 + 0.5).Floor == 52;
  }

  /** `if (x) multiplier *= x`. */
  method ApplyFactor(multiplier: real, f: Option<real>) returns (r: real)
    ensures r == multiplier * Applied(f)
  {
    r := multiplier;
    if f.Some? && f.value != 0.0 {
      r := r * f.value;
    }
  }

  // ---------------------------------------------------------------------------
  // The page state
  // ---------------------------------------------------------------------------

  /** The script's `state` record, updated in place by the buttons. */
  class Simulator {
    var housing: string
    var income: string
    var education: string
    var family: string
    var activeEvents: seq<string>

    function CurrentProfile(): Profile
      reads this
    {
      Profile(housing, income, education, family)
    }

    ghost predicate Valid()
      reads this
    {
      NoDuplicates(activeEvents)
    }

    constructor ()
      ensures Valid()
      ensures CurrentProfile() == InitialProfile && activeEvents == []
    {
      housing := "owner";
      income := "high";
      education := "hs";
      family := "single";
      activeEvents := [];
    }

    /** A profile button: `state[cat] = val`. */
    method SelectProfile(cat: Category, val: string)
      requires Valid()
      modifies this
      ensures Valid()
      ensures activeEvents == old(activeEvents)
      ensures CurrentProfile() == match cat
        case Housing => old(CurrentProfile()).(housing := val)
        case Income => old(CurrentProfile()).(income := val)
        case Education => old(CurrentProfile()).(education := val)
        case Family => old(CurrentProfile()).(family := val)
    {
      match cat
      case Housing => housing := val;
      case Income => income := val;
      case Education => education := val;
      case Family => family := val;
    }

    /** An event button: remove the id when active, add it otherwise. */
    method ToggleEvent(id: string)
      requires Valid()
      modifies this
      ensures Valid()
      ensures activeEvents == Toggled(old(activeEvents), id)
      ensures CurrentProfile() == old(CurrentProfile())
    {
      ToggleFlips(activeEvents, id);
      var index := IndexOf(activeEvents, id);
      if index == -1 {
        activeEvents := activeEvents + [id];
      } else {
        activeEvents := activeEvents[..index] + activeEvents[index + 1..];
      }
    }

    /** Step 1 of `updateSimulation`: the multiplier built factor by factor,
        the four profile factors first, then the events in list order. */
    method ComputeMultiplier() returns (multiplier: real)
      ensures multiplier == Multiplier(CurrentProfile(), activeEvents)
    {
      multiplier := ProfileFactors();
      multiplier := ApplyEventFactors(multiplier);
    }

    /** The "Profile Factors" block: 1 times each present, non-zero factor. */
    method ProfileFactors() returns (multiplier: real)
      ensures multiplier == ProfileMultiplier(CurrentProfile())
    {
      multiplier := 1.0;
      multiplier := ApplyFactor(multiplier, Factor(Housing, housing));
      multiplier := ApplyFactor(multiplier, Factor(Income, income));
      multiplier := ApplyFactor(multiplier, Factor(Education, education));
      multiplier := ApplyFactor(multiplier, Factor(Family, family));
      ProfileMultiplierFromOne(CurrentProfile());
    }

    /** The "Event Factors" block: `start` times the odds ratio of every
        known event of the list, in list order. */
    method ApplyEventFactors(start: real) returns (multiplier: real)
      ensures multiplier == start * EventsProduct(activeEvents)
    {
      multiplier := start;
      assert multiplier == start * EventsProduct(activeEvents[..0]) by {
        assert activeEvents[..0] == [];
        assert EventFactors([]) == [];
      }
      var i := 0;
      while i < |activeEvents|
        invariant 0 <= i <= |activeEvents|
        invariant multiplier == start * EventsProduct(activeEvents[..i])
      {
        var entry := EventAor(activeEvents[i]);
        RunningMultiplierStep(start, activeEvents, i);
        if entry.Some? {
          multiplier := multiplier * entry.value;
        }
        i := i + 1;
      }
      assert activeEvents[..i] == activeEvents;
    }

    /** `updateSimulation` up to the message: the multiplier, the
        probability, the one-decimal percentage and the verdict. */
    method UpdateSimulation() returns (multiplier: real, probability: real, percent: real, verdict: Option<Verdict>)
      ensures multiplier == Multiplier(CurrentProfile(), activeEvents)
      ensures probability == Probability(multiplier)
      ensures 0.0 < probability < 1.0
      ensures percent == Round1(probability * 100.0) && percent >= 0.0
      ensures verdict == Classify(activeEvents, percent, multiplier)
    {
      multiplier := ComputeMultiplier();
      ProbabilityBounds(multiplier);
      var odds := BaseOdds * multiplier;
      probability := odds / (1.0 + odds);
      percent := Round1(probability * 100.0);
      verdict := Classify(activeEvents, percent, multiplier);
    }
  }
}
