/**
 * The trolley run analyser: a log of per-level decisions is folded into
 * four counters (lives lost, deliberate choices, worst-case casualties,
 * lives spared), two rounded ratios are derived from them, and the ratios
 * pick a verdict.
 */
module Analyzer {
  import opened Wrappers
  import opened Rounding
  import opened Verdicts

  /** The two rails past the split. */
  datatype Lane = Top | Bottom

  /**
   * One level's record. Each rail's victim count may be given under its
   * primary key (`top`, `bottom`) or its synonym (`up`, `down`), or not at
   * all; `choice` is the tag the player left, if any ("T" and "B" mean a
   * lane, anything else means the level was skipped).
   */
  datatype Decision = Decision(
    top: Option<int>,
    up: Option<int>,
    bottom: Option<int>,
    down: Option<int>,
    choice: Option<string>)

  /** Victims on a rail: the primary key if present (even when 0), else the synonym, else 0. */
  function Victims(d: Decision, rail: Lane): (n: int)
    ensures rail == Top && d.top.Some? ==> n == d.top.value
    ensures rail == Top && d.top.None? && d.up.Some? ==> n == d.up.value
    ensures rail == Top && d.top.None? && d.up.None? ==> n == 0
    ensures rail == Bottom && d.bottom.Some? ==> n == d.bottom.value
    ensures rail == Bottom && d.bottom.None? && d.down.Some? ==> n == d.down.value
    ensures rail == Bottom && d.bottom.None? && d.down.None? ==> n == 0
  {
    match rail
    case Top => d.top.GetOr(d.up.GetOr(0))
    case Bottom => d.bottom.GetOr(d.down.GetOr(0))
  }

  function Max(a: int, b: int): int { if a >= b then a else b }

  function Abs(a: int): int { if a >= 0 then a else -a }

  /** The four accumulators of a run. */
  datatype Totals = Totals(livesLost: int, agencyCnt: int, maxCasualties: int, potentialSaved: int)

  const Zero := Totals(0, 0, 0, 0)

  /** Component-wise sum of two runs' accumulators. */
  function Plus(s: Totals, t: Totals): Totals {
    Totals(s.livesLost + t.livesLost, s.agencyCnt + t.agencyCnt,
           s.maxCasualties + t.maxCasualties, s.potentialSaved + t.potentialSaved)
  }

  /**
   * What one decision adds to the accumulators. A deliberate choice ("T"
   * or "B") adds 1 to agency and sends every victim of the level either to
   * the lost or to the spared column, never more than the level's worst
   * case to the lost one; a skipped level kills nobody and spares nothing
   * extra. Either way the worst case grows by the larger rail.
   */
  function Step(t: Totals, d: Decision): (r: Totals)
    ensures r.agencyCnt == t.agencyCnt + 1 <==> d.choice == Some("T") || d.choice == Some("B")
    ensures r.agencyCnt == t.agencyCnt || r.agencyCnt == t.agencyCnt + 1
    ensures r.agencyCnt != t.agencyCnt ==>
      (r.livesLost - t.livesLost) + (r.potentialSaved - t.potentialSaved) == Victims(d, Top) + Victims(d, Bottom)
    ensures r.agencyCnt != t.agencyCnt ==> r.livesLost - t.livesLost <= r.maxCasualties - t.maxCasualties
    ensures r.agencyCnt == t.agencyCnt ==> r.livesLost == t.livesLost && r.potentialSaved <= t.potentialSaved
    ensures r.maxCasualties - t.maxCasualties >= Victims(d, Top)
    ensures r.maxCasualties - t.maxCasualties >= Victims(d, Bottom)
    ensures r.maxCasualties - t.maxCasualties in {Victims(d, Top), Victims(d, Bottom)}
  {
    var top := Victims(d, Top);
    var bottom := Victims(d, Bottom);
    var worst := t.maxCasualties + Max(top, bottom);
    if d.choice == Some("T") then
      Totals(t.livesLost + top, t.agencyCnt + 1, worst, t.potentialSaved + bottom)
    else if d.choice == Some("B") then
      Totals(t.livesLost + bottom, t.agencyCnt + 1, worst, t.potentialSaved + top)
    else
      Totals(t.livesLost, t.agencyCnt, worst, t.potentialSaved - Abs(top - bottom))
  }

  /** The accumulators after the whole log, decisions taken in order; the agency count never exceeds the number of levels. */
  function Tally(ds: seq<Decision>): (r: Totals)
    ensures 0 <= r.agencyCnt <= |ds|
  {
    if ds == [] then Zero else Step(Tally(ds[..|ds| - 1]), ds[|ds| - 1])
  }

  /** Every rail of every decision resolves to a non-negative count. */
  predicate NonNegative(ds: seq<Decision>) {
    forall i :: 0 <= i < |ds| ==> Victims(ds[i], Top) >= 0 && Victims(ds[i], Bottom) >= 0
  }

  /**
   * Fraction of levels with a deliberate choice, to two decimals: a whole
   * number of hundredths in [0, 1]; 0 for an empty log or no choice at all,
   * 1 when every level was chosen.
   */
  function Agency(agencyCnt: int, levels: nat): (a: real)
    ensures IsHundredth(a)
    ensures levels == 0 || agencyCnt == 0 ==> a == 0.0
    ensures 0 <= agencyCnt <= levels ==> 0.0 <= a <= 1.0
    ensures 0 < levels && agencyCnt == levels ==> a == 1.0
  {
    var ratio := if levels != 0 then agencyCnt as real / levels as real else 0.0;
    Quotient(agencyCnt, levels);
    Round2Anchors(ratio);
    Round2(ratio)
  }

  /**
   * Lives lost rescaled from +1 (nobody on the chosen rails died) through 0
   * (half the worst case) to -1 (the worst case), to two decimals: a whole
   * number of hundredths, exactly 0 (never undefined) when the worst case
   * is 0, and in [-1, 1] when 0 <= lives lost <= worst case.
   */
  function Compassion(livesLost: int, maxCasualties: int): (c: real)
    ensures IsHundredth(c)
    ensures maxCasualties == 0 ==> c == 0.0
    ensures 0 <= livesLost <= maxCasualties ==> -1.0 <= c <= 1.0
    ensures maxCasualties != 0 && livesLost == 0 ==> c == 1.0
    ensures maxCasualties != 0 && 2 * livesLost == maxCasualties ==> c == 0.0
    ensures maxCasualties != 0 && livesLost == maxCasualties ==> c == -1.0
  {
    var scaled := if maxCasualties != 0 then 1.0 - 2.0 * (livesLost as real / maxCasualties as real) else 0.0;
    Quotient(livesLost, maxCasualties);
    Round2Anchors(scaled);
    Round2(scaled)
  }

  /** Facts about the exact quotient `k / n` that the metrics rely on. */
  lemma Quotient(k: int, n: int)
    ensures n != 0 && k == 0 ==> k as real / n as real == 0.0
    ensures n != 0 && k == n ==> k as real / n as real == 1.0
    ensures n != 0 && 2 * k == n ==> k as real / n as real == 0.5
    ensures n != 0 && 0 <= k <= n ==> 0.0 <= k as real / n as real <= 1.0
  {
    if n != 0 {
      var q, m := k as real / n as real, n as real;
      assert q * m == k as real;
      if k == n {
        ZeroProduct(q - 1.0, m);
      }
      if 2 * k == n {
        ZeroProduct(2.0 * q - 1.0, m);
      }
      if 0 <= k <= n {
        ScaleStrict(q, 0.0, m);
        ScaleStrict(1.0, q, m);
      }
    }
  }

  /** A product with a non-zero factor is zero only when the other factor is. */
  lemma ZeroProduct(a: real, m: real)
    requires m != 0.0 && a * m == 0.0
    ensures a == 0.0
  {
  }

  /** Multiplying both sides by a positive number keeps a strict inequality. */
  lemma ScaleStrict(q: real, c: real, m: real)
    requires m > 0.0
    ensures q < c <==> q * m < c * m
  {
  }

  /** The share `k / n` is under 19.5% exactly when 200 k < 39 n. */
  lemma QuotientBelow(k: nat, n: nat)
    requires n > 0
    ensures 0.0 <= k as real / n as real
    ensures k as real / n as real < 0.195 <==> 200 * k < 39 * n
  {
    var q, m := k as real / n as real, n as real;
    assert q * m == k as real;
    ScaleStrict(q, 0.195, m);
    assert q < 0.195 <==> k as real < 0.195 * m;
    ScaleStrict(q, 0.0, m);
  }

  /** The analyser's result record. */
  datatype Report = Report(
    verdict: string,
    tagline: string,
    livesLost: int,
    potentialSaved: int,
    agency: real,
    compassion: real,
    summary: string)

  /**
   * The record built from final accumulators over a log of `levels`
   * decisions: counters copied, both ratios derived, and verdict, tagline
   * and summary all taken from the one row the ratios select.
   */
  function MakeReport(t: Totals, levels: nat): (r: Report)
    ensures r.livesLost == t.livesLost && r.potentialSaved == t.potentialSaved
    ensures r.agency == Agency(t.agencyCnt, levels)
    ensures r.compassion == Compassion(t.livesLost, t.maxCasualties)
    ensures r.verdict == PickVerdict(r.agency, r.compassion).Label()
    ensures r.tagline == PickVerdict(r.agency, r.compassion).Tagline()
    ensures r.summary == r.verdict + " — " + r.tagline
  {
    var agency := Agency(t.agencyCnt, levels);
    var compassion := Compassion(t.livesLost, t.maxCasualties);
    var v := PickVerdict(agency, compassion);
    Report(v.Label(), v.Tagline(), t.livesLost, t.potentialSaved, agency, compassion,
           v.Label() + " — " + v.Tagline())
  }

  /**
   * The analysis of a whole log, as a value: the counters are the fold's,
   * agency is in [0, 1], compassion is in [-1, 1] when no count is
   * negative, and an empty log is a Detached Bystander with both ratios 0.
   */
  function Analyse(ds: seq<Decision>): (r: Report)
    ensures r.livesLost == Tally(ds).livesLost && r.potentialSaved == Tally(ds).potentialSaved
    ensures r.verdict == PickVerdict(r.agency, r.compassion).Label()
    ensures r.tagline == PickVerdict(r.agency, r.compassion).Tagline()
    ensures r.summary == r.verdict + " — " + r.tagline
    ensures 0.0 <= r.agency <= 1.0
    ensures NonNegative(ds) ==> 0 <= r.livesLost && -1.0 <= r.compassion <= 1.0
    ensures ds == [] ==> r.agency == 0.0 && r.compassion == 0.0 && r.verdict == "Detached Bystander"
  {
    TallyBounds(ds);
    MakeReport(Tally(ds), |ds|)
  }

  /** Runs the accumulation loop over the log and derives the metrics and the verdict. */
  method AnalyseRun(decisions: seq<Decision>) returns (r: Report)
    ensures r == Analyse(decisions)
    ensures r.livesLost == Tally(decisions).livesLost
    ensures r.potentialSaved == Tally(decisions).potentialSaved
    ensures r.verdict == PickVerdict(r.agency, r.compassion).Label()
    ensures r.tagline == PickVerdict(r.agency, r.compassion).Tagline()
    ensures r.summary == r.verdict + " — " + r.tagline
    ensures 0.0 <= r.agency <= 1.0
    ensures NonNegative(decisions) ==> 0 <= r.livesLost && -1.0 <= r.compassion <= 1.0
    ensures decisions == [] ==> r.agency == 0.0 && r.compassion == 0.0 && r.verdict == "Detached Bystander"
  {
    var livesLost, agencyCnt, maxCasualties, potentialSaved := 0, 0, 0, 0;
    for i := 0 to |decisions|
      invariant Totals(livesLost, agencyCnt, maxCasualties, potentialSaved) == Tally(decisions[..i])
    {
      var d := decisions[i];
      var top := Victims(d, Top);
      var bottom := Victims(d, Bottom);
      maxCasualties := maxCasualties + Max(top, bottom);
      if d.choice == Some("T") {
        livesLost := livesLost + top;
        potentialSaved := potentialSaved + bottom;
        agencyCnt := agencyCnt + 1;
      } else if d.choice == Some("B") {
        livesLost := livesLost + bottom;
        potentialSaved := potentialSaved + top;
        agencyCnt := agencyCnt + 1;
      } else {
        potentialSaved := potentialSaved + -Abs(top - bottom);
      }
      assert decisions[..i + 1][..i] == decisions[..i];
    }
    assert decisions[..|decisions|] == decisions;

    var agency := Agency(agencyCnt, |decisions|);
    var compassion := Compassion(livesLost, maxCasualties);
    var v := PickVerdict(agency, compassion);
    r := Report(v.Label(), v.Tagline(), livesLost, potentialSaved, agency, compassion,
                v.Label() + " — " + v.Tagline());
  }

  /** With non-negative counts, lives lost never exceed the worst case. */
  lemma {:induction false} TallyBounds(ds: seq<Decision>)
    ensures NonNegative(ds) ==> 0 <= Tally(ds).livesLost <= Tally(ds).maxCasualties
  {
    if ds != [] && NonNegative(ds) {
      var init := ds[..|ds| - 1];
      assert NonNegative(init) by {
        forall i | 0 <= i < |init| ensures Victims(init[i], Top) >= 0 && Victims(init[i], Bottom) >= 0 {
          assert init[i] == ds[i];
        }
      }
      TallyBounds(init);
    }
  }

  /** Adding a decision at the end of the log: the last decision is the one folded last. */
  lemma TallySnoc(ds: seq<Decision>, d: Decision)
    ensures Tally(ds + [d]) == Step(Tally(ds), d)
  {
    assert (ds + [d])[..|ds|] == ds;
  }

  /** A decision for the top rail costs its top victims, spares its bottom ones and counts as a choice. */
  lemma AppendChosenTop(ds: seq<Decision>, d: Decision)
    requires d.choice == Some("T")
    ensures Tally(ds + [d]).livesLost == Tally(ds).livesLost + Victims(d, Top)
    ensures Tally(ds + [d]).potentialSaved == Tally(ds).potentialSaved + Victims(d, Bottom)
    ensures Tally(ds + [d]).agencyCnt == Tally(ds).agencyCnt + 1
    ensures Tally(ds + [d]).maxCasualties == Tally(ds).maxCasualties + Max(Victims(d, Top), Victims(d, Bottom))
  {
    TallySnoc(ds, d);
  }

  /** A decision for the bottom rail is the mirror image. */
  lemma AppendChosenBottom(ds: seq<Decision>, d: Decision)
    requires d.choice == Some("B")
    ensures Tally(ds + [d]).livesLost == Tally(ds).livesLost + Victims(d, Bottom)
    ensures Tally(ds + [d]).potentialSaved == Tally(ds).potentialSaved + Victims(d, Top)
    ensures Tally(ds + [d]).agencyCnt == Tally(ds).agencyCnt + 1
    ensures Tally(ds + [d]).maxCasualties == Tally(ds).maxCasualties + Max(Victims(d, Top), Victims(d, Bottom))
  {
    TallySnoc(ds, d);
  }

  /**
   * A skipped level (no tag, or a tag other than "T" and "B") costs no
   * lives and no agency, and takes the difference between the rails off
   * the lives spared.
   */
  lemma AppendSkipped(ds: seq<Decision>, d: Decision)
    requires d.choice != Some("T") && d.choice != Some("B")
    ensures Tally(ds + [d]).livesLost == Tally(ds).livesLost
    ensures Tally(ds + [d]).potentialSaved == Tally(ds).potentialSaved - Abs(Victims(d, Top) - Victims(d, Bottom))
    ensures Tally(ds + [d]).agencyCnt == Tally(ds).agencyCnt
    ensures Tally(ds + [d]).maxCasualties == Tally(ds).maxCasualties + Max(Victims(d, Top), Victims(d, Bottom))
  {
    TallySnoc(ds, d);
  }

  /** Folding one more decision commutes with adding an earlier run's accumulators. */
  lemma StepPlus(s: Totals, t: Totals, d: Decision)
    ensures Step(Plus(s, t), d) == Plus(s, Step(t, d))
  {
  }

  /** The accumulators of two logs run back to back are the sums of their separate accumulators. */
  lemma {:induction false} TallyConcat(a: seq<Decision>, b: seq<Decision>)
    ensures Tally(a + b) == Plus(Tally(a), Tally(b))
  {
    if b == [] {
      assert a + b == a;
    } else {
      var init, last := b[..|b| - 1], b[|b| - 1];
      assert a + b == (a + init) + [last];
      assert b == init + [last];
      TallySnoc(a + init, last);
      TallySnoc(init, last);
      TallyConcat(a, init);
      StepPlus(Tally(a), Tally(init), last);
    }
  }

  /** Playing two stretches of levels in either order gives the same report. */
  lemma AnalyseOrderIrrelevant(a: seq<Decision>, b: seq<Decision>)
    ensures Analyse(a + b) == Analyse(b + a)
  {
    TallyConcat(a, b);
    TallyConcat(b, a);
  }

  /** A decision with its counts resolved and stored under the primary keys only. */
  function Canonical(d: Decision): (c: Decision)
    ensures c.up == None && c.down == None && c.choice == d.choice
  {
    Decision(Some(Victims(d, Top)), None, Some(Victims(d, Bottom)), None, d.choice)
  }

  function CanonicalAll(ds: seq<Decision>): (cs: seq<Decision>)
    ensures |cs| == |ds|
    ensures forall i :: 0 <= i < |ds| ==> cs[i] == Canonical(ds[i])
  {
    seq(|ds|, i requires 0 <= i < |ds| => Canonical(ds[i]))
  }

  /** Which key names carried the counts makes no difference to the analysis. */
  lemma {:induction false} AnalyseCanonical(ds: seq<Decision>)
    ensures Tally(CanonicalAll(ds)) == Tally(ds)
    ensures Analyse(CanonicalAll(ds)) == Analyse(ds)
  {
    if ds != [] {
      var init := ds[..|ds| - 1];
      assert CanonicalAll(ds)[..|ds| - 1] == CanonicalAll(init);
      AnalyseCanonical(init);
    }
  }

  /** The empty log: agency 0, compassion 0, and the bystander verdict. */
  lemma EmptyRun()
    ensures Analyse([]).agency == 0.0 && Analyse([]).compassion == 0.0
    ensures Analyse([]).livesLost == 0 && Analyse([]).potentialSaved == 0
    ensures Analyse([]).verdict == "Detached Bystander"
    ensures Analyse([]).summary == "Detached Bystander — You let fate decide."
  {
  }

  /** A log without a single deliberate choice costs no lives and no agency. */
  lemma {:induction false} NoChoiceNoAgency(ds: seq<Decision>)
    requires forall i :: 0 <= i < |ds| ==> ds[i].choice != Some("T") && ds[i].choice != Some("B")
    ensures Tally(ds).agencyCnt == 0 && Tally(ds).livesLost == 0
  {
    if ds != [] {
      NoChoiceNoAgency(ds[..|ds| - 1]);
    }
  }

  /** A run in which every level was skipped ends as a Detached Bystander, whatever the counts. */
  lemma PassiveRunIsDetached(ds: seq<Decision>)
    requires forall i :: 0 <= i < |ds| ==> ds[i].choice != Some("T") && ds[i].choice != Some("B")
    ensures Analyse(ds).livesLost == 0
    ensures Analyse(ds).agency == 0.0
    ensures Analyse(ds).summary == "Detached Bystander — You let fate decide."
  {
    NoChoiceNoAgency(ds);
    NoAgencyIsDetached(Tally(ds), |ds|);
  }

  /** Accumulators with no deliberate choice give agency 0 and the bystander summary. */
  lemma NoAgencyIsDetached(t: Totals, levels: nat)
    requires t.agencyCnt == 0
    ensures MakeReport(t, levels).agency == 0.0
    ensures MakeReport(t, levels).summary == "Detached Bystander — You let fate decide."
  {
    var r := MakeReport(t, levels);
    assert PickVerdict(r.agency, r.compassion) == DetachedBystander;
  }

  /** On a non-empty log, rounded agency falls below 0.2 exactly when fewer than 19.5% of levels were chosen. */
  lemma AgencyBelowThreshold(agencyCnt: nat, levels: nat)
    requires levels > 0
    ensures Agency(agencyCnt, levels) < 0.2 <==> 200 * agencyCnt < 39 * levels
  {
    var q := agencyCnt as real / levels as real;
    QuotientBelow(agencyCnt, levels);
    assert Agency(agencyCnt, levels) == Round2(q);
    Round2Below(q, 0.2);
  }

  /** The bystander verdict is reached exactly on an empty log or one with under 19.5% deliberate choices. */
  lemma DetachedIff(ds: seq<Decision>)
    ensures Analyse(ds).verdict == "Detached Bystander" <==> ds == [] || 200 * Tally(ds).agencyCnt < 39 * |ds|
  {
    var t := Tally(ds);
    var v := PickVerdict(Agency(t.agencyCnt, |ds|), Compassion(t.livesLost, t.maxCasualties));
    RowsDistinct(v, DetachedBystander);
    AgencyThreshold(Agency(t.agencyCnt, |ds|), Compassion(t.livesLost, t.maxCasualties));
    if ds != [] {
      AgencyBelowThreshold(t.agencyCnt, |ds|);
    }
  }

  /** One level, top rail chosen with 1 on top and 5 below: a Heroic Utilitarian at compassion 0.6. */
  lemma ChoseTheSmallerCrowd()
    ensures var r := Analyse([Decision(Some(1), None, Some(5), None, Some("T"))]);
      && r.livesLost == 1 && r.potentialSaved == 5
      && r.agency == 1.0 && r.compassion == 0.6
      && r.verdict == "Heroic Utilitarian"
  {
    var ds := [Decision(Some(1), None, Some(5), None, Some("T"))];
    assert ds == [] + [ds[0]];
    TallySnoc([], ds[0]);
    Quotient(1, 5);
    assert 1 as real / 5 as real == 0.2;
    Round2Unique(0.6, 0.6);
  }

  /** One skipped level with 5 on top and 1 below: 4 lives spared are taken off, and the verdict ignores compassion. */
  lemma SkippedUnequalLevel()
    ensures var r := Analyse([Decision(Some(5), None, Some(1), None, None)]);
      && r.livesLost == 0 && r.potentialSaved == -4
      && r.agency == 0.0 && r.compassion == 1.0
      && r.verdict == "Detached Bystander"
  {
    var ds := [Decision(Some(5), None, Some(1), None, None)];
    assert ds == [] + [ds[0]];
    TallySnoc([], ds[0]);
    Quotient(0, 1);
    Round2OfHundredth(0.0);
  }

  /** A level whose counts are given only under the synonyms `up`/`down` is tallied as if they were `top`/`bottom`. */
  lemma SynonymKeys(ds: seq<Decision>, d: Decision)
    requires d.top.None? && d.bottom.None?
    ensures Tally(ds + [d]) == Tally(ds + [Decision(d.up, None, d.down, None, d.choice)])
  {
    TallySnoc(ds, d);
    TallySnoc(ds, Decision(d.up, None, d.down, None, d.choice));
  }

  /** A present primary key, even of 0, wins: whatever its synonym holds does not change the tally. */
  lemma PrimaryKeyWins(ds: seq<Decision>, d: Decision, n: Option<int>)
    ensures d.top.Some? ==> Tally(ds + [d]) == Tally(ds + [d.(up := n)])
    ensures d.bottom.Some? ==> Tally(ds + [d]) == Tally(ds + [d.(down := n)])
  {
    TallySnoc(ds, d);
    TallySnoc(ds, d.(up := n));
    TallySnoc(ds, d.(down := n));
  }
}
