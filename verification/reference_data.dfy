/**
 * The static reference tables the estimator reads: one entry per club key in each
 * of four tables (club profiles, scratch metrics, no-compression baselines and
 * smash-factor ranges). They are loaded once and never changed, so the model takes
 * them as one immutable argument.
 */
module ReferenceData {

  /**
   * A club's speed-to-carry curve: (swing speed in mph, carry in yards) entries in
   * the order the data document lists them. A document object holds each key once.
   */
  type CarryTable = seq<(real, real)>

  /** Name, standard loft (degrees), scratch swing speed (mph) and carry curve. */
  datatype ClubProfile = ClubProfile(name: string, loft: real, swingSpeed: real, carry: CarryTable)

  /** The scratch player's dynamic loft (degrees), spin rate (rpm) and launch angle (degrees). */
  datatype ClubMetrics = ClubMetrics(dynamicLoft: real, spinRate: real, launchAngle: real)

  /** Carry (yards) and spin (rpm) of a zero-compression strike: the zero point of the ratio. */
  datatype Baseline = Baseline(carry: real, spin: real)

  /** Smash factor of a mishit (`low`) and of a pure scratch strike (`high`). */
  datatype SmashRange = SmashRange(low: real, high: real)

  /** The four tables, keyed by club identifier. */
  datatype Tables = Tables(
    clubData: map<string, ClubProfile>,
    clubMetrics: map<string, ClubMetrics>,
    noCompressionData: map<string, Baseline>,
    smashFactors: map<string, SmashRange>)

  /** True when every one of the four tables has an entry for `club`. */
  predicate HasClub(t: Tables, club: string) {
    && club in t.clubData
    && club in t.clubMetrics
    && club in t.noCompressionData
    && club in t.smashFactors
  }
}
