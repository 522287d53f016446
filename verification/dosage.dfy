/**
 * The dose calculator that process_renal runs once all three answers are in
 * (main.py:117-133). Weights are in kg, clearances in mL/min, doses in mg and
 * infusions in the unit the bot prints (mg/hour). Arithmetic is exact (`real`).
 */
module Dosage {
  import opened Wrappers

  /** The two drugs the bot knows, by the button texts it offers (main.py:35). */
  datatype Drug = Eptifibatide | Tirofiban

  const EptifibatideName: string := "Эптифибатид"
  const TirofibanName: string := "Агграстат"

  /** The button text of a drug; it is never a bot command, which starts with '/'. */
  function Name(drug: Drug): (s: string)
    ensures |s| > 0 && s[0] != '/'
  {
    match drug
    case Eptifibatide => EptifibatideName
    case Tirofiban => TirofibanName
  }

  /**
   * The drug a message names: only the two button texts, letter for letter, are
   * accepted (main.py:77). DrugOfName is the inverse of Name.
   */
  function DrugOfName(text: string): (r: Option<Drug>)
    ensures forall drug :: r == Some(drug) <==> Name(drug) == text
  {
    if text == EptifibatideName then Some(Eptifibatide)
    else if text == TirofibanName then Some(Tirofiban)
    else None
  }

  /** What the bot reports: bolus (mg), infusion (mg/hour) and the renal-correction note. */
  datatype DoseResult = DoseResult(bolus: real, infusion: real, renalAdjusted: bool)

  /** Python's min on two numbers. */
  function Min(a: real, b: real): (m: real)
    ensures m <= a && m <= b && (m == a || m == b)
  {
    if b < a then b else a
  }

  /** The infusion rate the protocol gives for normal renal function, in µg/kg/min (main.py:58, main.py:61). */
  function StandardRate(drug: Drug): real {
    match drug
    case Eptifibatide => 2.0
    case Tirofiban => 0.15
  }

  /**
   * Whether the reply carries the renal-insufficiency note (main.py:133): clearance
   * under 50 for eptifibatide, under 30 for tirofiban.
   */
  predicate RenalAdjusted(drug: Drug, clearance: real): (adjusted: bool)
    ensures adjusted ==> clearance < 50.0
    ensures clearance < 30.0 ==> adjusted
  {
    (clearance < 50.0 && drug == Eptifibatide) || (clearance < 30.0 && drug == Tirofiban)
  }

  /**
   * The infusion rate in µg/kg/min chosen by clearance (main.py:120, main.py:126).
   * It is the standard rate or half of it, and it is reduced exactly when the reply
   * carries the renal note, although the source computes the two separately.
   */
  function InfusionRate(drug: Drug, clearance: real): (rate: real)
    ensures rate == StandardRate(drug) || rate * 2.0 == StandardRate(drug)
    ensures rate < StandardRate(drug) <==> RenalAdjusted(drug, clearance)
  {
    match drug
    case Eptifibatide => if clearance < 50.0 then 1.0 else 2.0
    case Tirofiban => if clearance < 30.0 then 0.075 else 0.15
  }

  /**
   * The doses for a drug, weight and clearance (main.py:118-127, main.py:133).
   * Eptifibatide's bolus and infusion are capped at 22.6 mg and 15 mg/hour;
   * tirofiban's are not capped at all.
   */
  function Calculate(drug: Drug, weight: real, clearance: real): (r: DoseResult)
    ensures weight > 0.0 ==> r.bolus > 0.0 && r.infusion > 0.0
    ensures drug == Eptifibatide ==> r.bolus <= 22.6 && r.infusion <= 15.0
    ensures r.renalAdjusted <==> InfusionRate(drug, clearance) < StandardRate(drug)
  {
    var rate := InfusionRate(drug, clearance);
    match drug
    case Eptifibatide =>
      DoseResult(Min(weight * 180.0 / 1000.0, 22.6),
             Min(weight * rate * 60.0 / 1000.0, 15.0),
             RenalAdjusted(drug, clearance))
    case Tirofiban =>
      DoseResult(weight * 25.0 / 1000.0,
             weight * rate * 60.0,
             RenalAdjusted(drug, clearance))
  }

  /**
   * Eptifibatide's doses are the weight-based doses (180 µg/kg bolus, the rate in
   * µg/kg/min over an hour) until they reach their caps, and the caps after.
   */
  lemma EptifibatideCaps(weight: real, clearance: real)
    requires weight > 0.0
    ensures var r := Calculate(Eptifibatide, weight, clearance);
            (weight * 0.18 <= 22.6 ==> r.bolus == weight * 0.18)
            && (weight * 0.18 >= 22.6 ==> r.bolus == 22.6)
            && (weight * InfusionRate(Eptifibatide, clearance) * 0.06 <= 15.0 ==>
                  r.infusion == weight * InfusionRate(Eptifibatide, clearance) * 0.06)
            && (weight * InfusionRate(Eptifibatide, clearance) * 0.06 >= 15.0 ==> r.infusion == 15.0)
  {
  }

  /**
   * The thresholds themselves count as normal renal function: Cl = 50 gives
   * eptifibatide's full rate and Cl = 30 tirofiban's, with no renal note.
   */
  lemma ThresholdBoundaries()
    ensures InfusionRate(Eptifibatide, 50.0) == 2.0 && !RenalAdjusted(Eptifibatide, 50.0)
    ensures InfusionRate(Tirofiban, 30.0) == 0.15 && !RenalAdjusted(Tirofiban, 30.0)
    ensures forall cl :: cl < 50.0 ==> InfusionRate(Eptifibatide, cl) == 1.0 && RenalAdjusted(Eptifibatide, cl)
    ensures forall cl :: cl < 30.0 ==> InfusionRate(Tirofiban, cl) == 0.075 && RenalAdjusted(Tirofiban, cl)
  {
  }

  /** A heavier patient or a better clearance never gets a smaller bolus or infusion. */
  lemma DoseMonotone(drug: Drug, w1: real, w2: real, c1: real, c2: real)
    requires 0.0 < w1 <= w2 && c1 <= c2
    ensures Calculate(drug, w1, c1).bolus <= Calculate(drug, w2, c2).bolus
    ensures Calculate(drug, w1, c1).infusion <= Calculate(drug, w2, c2).infusion
  {
    var r1, r2 := InfusionRate(drug, c1), InfusionRate(drug, c2);
    assert 0.0 < r1 <= r2;
    assert w1 * r1 <= w2 * r1 <= w2 * r2;
  }

  /**
   * Tirofiban's infusion is not held to the 40 mg/hour maximum that the protocol
   * text lists (main.py:64): from 9 kg up it exceeds it at every clearance.
   */
  lemma TirofibanExceedsListedMaximum(weight: real, clearance: real)
    requires weight >= 9.0
    ensures Calculate(Tirofiban, weight, clearance).infusion > 40.0
  {
    var rate := InfusionRate(Tirofiban, clearance);
    assert rate >= 0.075;
    assert weight * rate >= 9.0 * 0.075;
  }

  /** The worked cases: 70 kg at Cl 40 on eptifibatide, 80 kg at Cl 20 and Cl 50 on tirofiban. */
  lemma WorkedExamples()
    ensures Calculate(Eptifibatide, 70.0, 40.0) == DoseResult(12.6, 4.2, true)
    ensures Calculate(Tirofiban, 80.0, 20.0) == DoseResult(2.0, 360.0, true)
    ensures Calculate(Tirofiban, 80.0, 50.0) == DoseResult(2.0, 720.0, false)
  {
  }
}
