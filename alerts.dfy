/**
 The static alert thresholds of script.js and the classification of a
 current price against them.
 */
module Alerts {

  /** A soft-sell price and a target price, both in USD. */
  datatype Threshold = Threshold(soft: real, target: real)

  /** The three outcomes of the alert column. */
  datatype Alert = TargetHit | SoftSellZone | NoAlert

  /** The `alertThresholds` table, keyed by upper-case symbol. */
  const ALERT_THRESHOLDS: map<string, Threshold> := map[
    "XRP" := Threshold(3.00, 4.00),
    "DOGE" := Threshold(0.25, 0.30),
    "PEPE" := Threshold(0.000010, 0.000012),
    "BONK" := Threshold(0.000017, 0.000022),
    "SHIB" := Threshold(0.000016, 0.000025),
    "WIF" := Threshold(0.75, 1.25)
  ]

  /**
   Classifies the current price `cp` of symbol `upper`. A symbol without an
   entry never alerts, because a comparison against `undefined` is false; the
   target test is made before the soft test, so it wins when both hold.
   */
  function Classify(table: map<string, Threshold>, upper: string, cp: real): (a: Alert)
    ensures a == TargetHit <==> upper in table && cp >= table[upper].target
    ensures a == SoftSellZone <==> upper in table && table[upper].soft <= cp < table[upper].target
    ensures a == NoAlert <==> upper !in table || (cp < table[upper].target && cp < table[upper].soft)
  {
    if upper in table && cp >= table[upper].target then TargetHit
    else if upper in table && cp >= table[upper].soft then SoftSellZone
    else NoAlert
  }

  /** The rank of an alert: none, soft zone, target hit. */
  function Rank(a: Alert): nat
  {
    match a
    case NoAlert => 0
    case SoftSellZone => 1
    case TargetHit => 2
  }

  /** A higher price never lowers the alert, whatever the thresholds are. */
  lemma ClassifyMonotone(table: map<string, Threshold>, upper: string, cp1: real, cp2: real)
    requires cp1 <= cp2
    ensures Rank(Classify(table, upper, cp1)) <= Rank(Classify(table, upper, cp2))
  {
  }

  /** The table configures exactly six symbols, each with its soft price below its target. */
  lemma ThresholdsOrdered()
    ensures ALERT_THRESHOLDS.Keys == {"XRP", "DOGE", "PEPE", "BONK", "SHIB", "WIF"}
    ensures forall sym :: sym in ALERT_THRESHOLDS ==> 0.0 < ALERT_THRESHOLDS[sym].soft < ALERT_THRESHOLDS[sym].target
  {
  }

  /** The XRP scenarios: 3.50 lies in the soft zone, 4.50 hits the target, 2.00 is quiet, and an unconfigured symbol never alerts. */
  lemma XrpScenarios()
    ensures Classify(ALERT_THRESHOLDS, "XRP", 3.50) == SoftSellZone
    ensures Classify(ALERT_THRESHOLDS, "XRP", 4.50) == TargetHit
    ensures Classify(ALERT_THRESHOLDS, "XRP", 2.00) == NoAlert
    ensures Classify(ALERT_THRESHOLDS, "BTC", 1000000.0) == NoAlert
  {
  }
}
