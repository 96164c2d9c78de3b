/**
 * The advice classifier: maps strike efficiency (the performance ratio as a
 * percentage) to an advice category through an ordered threshold table, one for
 * the driver and one for every other club. The first threshold met wins.
 */
module StrikeAdvice {

  /** One category per advice message the classifier can show. */
  datatype Category =
    | OptimalLaunch        // driver: optimal launch conditions
    | DecentDriverStrike   // driver: decent, just outside optimal launch
    | PoorDriverStrike     // driver: hitting down, or launching too high
    | TypoOrTourPro        // typo, or ready to turn pro
    | TourCompression      // tour-level compression
    | SolidStrike          // solid strike
    | DecentContact        // decent contact, room to improve
    | Casting              // likely casting or flipping
    | PoorStrike           // poor strike
    | CompleteMishit       // complete mishit

  /** The colour the advice is shown in. */
  datatype Color = Green | Orange | Red | Blue | DarkOrange | Black | Gray

  /** The classifier's three outputs: the advice, its colour and the driver flag. */
  datatype Verdict = Verdict(category: Category, color: Color, driverFlag: bool)

  /** True for the categories of the driver table. */
  predicate IsDriverCategory(c: Category) {
    c.OptimalLaunch? || c.DecentDriverStrike? || c.PoorDriverStrike?
  }

  /**
   * The efficiency interval of each category, lower bound inclusive and upper bound
   * exclusive; `hasFloor`/`hasCeiling` false means the interval is open on that side.
   */
  datatype Band = Band(hasFloor: bool, floor: real, hasCeiling: bool, ceiling: real)

  /** The bands, written as intervals rather than as an ordered list of thresholds. */
  function BandOf(c: Category): Band {
    match c
    case OptimalLaunch => Band(true, 80.0, false, 0.0)
    case DecentDriverStrike => Band(true, 50.0, true, 80.0)
    case PoorDriverStrike => Band(false, 0.0, true, 50.0)
    case TypoOrTourPro => Band(true, 130.0, false, 0.0)
    case TourCompression => Band(true, 85.0, true, 130.0)
    case SolidStrike => Band(true, 60.0, true, 85.0)
    case DecentContact => Band(true, 20.0, true, 60.0)
    case Casting => Band(true, 5.0, true, 20.0)
    case PoorStrike => Band(true, -25.0, true, 5.0)
    case CompleteMishit => Band(false, 0.0, true, -25.0)
  }

  /** True when `efficiency` lies in the band of `c`. */
  predicate InBand(c: Category, efficiency: real) {
    var b := BandOf(c);
    (!b.hasFloor || b.floor <= efficiency) && (!b.hasCeiling || efficiency < b.ceiling)
  }

  /** The colour each category is shown in. */
  function ColorOf(c: Category): Color {
    match c
    case OptimalLaunch => Green
    case DecentDriverStrike => Orange
    case PoorDriverStrike => Red
    case TypoOrTourPro => Blue
    case TourCompression => Green
    case SolidStrike => DarkOrange
    case DecentContact => Orange
    case Casting => Black
    case PoorStrike => Red
    case CompleteMishit => Gray
  }

  /**
   * The ordered decision table: driver thresholds 80 and 50, other clubs 130, 85,
   * 60, 20, 5 and -25, evaluated from the top.
   */
  function Classify(isDriver: bool, efficiency: real): (v: Verdict)
    ensures IsDriverCategory(v.category) <==> isDriver
    ensures InBand(v.category, efficiency)
    ensures v.color == ColorOf(v.category)
    ensures v.driverFlag <==> isDriver && efficiency < 80.0
  {
    if isDriver then
      if efficiency >= 80.0 then Verdict(OptimalLaunch, Green, false)
      else if efficiency >= 50.0 then Verdict(DecentDriverStrike, Orange, true)
      else Verdict(PoorDriverStrike, Red, true)
    else
      if efficiency >= 130.0 then Verdict(TypoOrTourPro, Blue, false)
      else if efficiency >= 85.0 then Verdict(TourCompression, Green, false)
      else if efficiency >= 60.0 then Verdict(SolidStrike, DarkOrange, false)
      else if efficiency >= 20.0 then Verdict(DecentContact, Orange, false)
      else if efficiency >= 5.0 then Verdict(Casting, Black, false)
      else if efficiency >= -25.0 then Verdict(PoorStrike, Red, false)
      else Verdict(CompleteMishit, Gray, false)
  }

  /**
   * The table is exhaustive and its bands do not overlap: the classifier picks `c`
   * exactly when `c` belongs to the selected table and the efficiency lies in its band.
   */
  lemma ClassifyIsBandLookup(isDriver: bool, efficiency: real, c: Category)
    ensures Classify(isDriver, efficiency).category == c
        <==> (IsDriverCategory(c) <==> isDriver) && InBand(c, efficiency)
  {
  }

  /** Two categories of the same table whose bands share an efficiency are the same category. */
  lemma BandsOfOneTableAreDisjoint(c1: Category, c2: Category, efficiency: real)
    requires IsDriverCategory(c1) == IsDriverCategory(c2)
    requires InBand(c1, efficiency) && InBand(c2, efficiency)
    ensures c1 == c2
  {
  }
}
