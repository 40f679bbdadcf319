/** The score deriver: five linear formulas from the current selection and
    the catalogs' last values to the five performance scores, plus the bar
    chart dataset built from those scores. */
module Deriver {
  import opened Catalogs

  /** The five selected option values. */
  datatype Selection = Selection(wheelSize: int, wheelDuro: int, deckWidth: int, concave: int, abec: int)

  /** The five derived scores; speed is exact (no floating-point rounding). */
  datatype Scores = Scores(speed: real, acceleration: int, stability: int, manoeuverability: int, comfort: int)

  /** One bar of the chart: a score's name and height. */
  datatype ChartBar = ChartBar(name: string, score: real)

  /** The fixed domain of the chart's value axis. */
  const AxisMin: real := 0.0
  const AxisMax: real := 31.0

  /** The selection the calculator starts with. */
  const DefaultSelection: Selection := Selection(6, 4, 3, 2, 2)

  /** Every field holds the value of one of its catalog's options. */
  ghost predicate ValidSelection(s: Selection) {
    InCatalog(WheelSizes, s.wheelSize) && InCatalog(WheelDuros, s.wheelDuro)
    && InCatalog(DeckWidths, s.deckWidth) && InCatalog(Concaves, s.concave)
    && InCatalog(Abecs, s.abec)
  }

  function Speed(s: Selection): (r: real) {
    s.wheelSize as real * 1.1 + s.wheelDuro as real + s.abec as real * 1.7
  }

  function Acceleration(s: Selection): (r: int) {
    (1 + LastValue(WheelSizes) - s.wheelSize) * 2
  }

  function Stability(s: Selection): (r: int) {
    LastValue(DeckWidths) + s.deckWidth - s.concave * 2
  }

  function Manoeuverability(s: Selection): (r: int) {
    s.concave * 2 + LastValue(DeckWidths) - s.deckWidth
  }

  function Comfort(s: Selection): (r: int) {
    (1 + LastValue(WheelDuros) + LastValue(Concaves) - s.wheelDuro - s.concave) * 3
  }

  /** All five scores recomputed from a selection. */
  function Derive(s: Selection): (sc: Scores) {
    Scores(Speed(s), Acceleration(s), Stability(s), Manoeuverability(s), Comfort(s))
  }

  /** The dataset handed to the bar chart, in display order. */
  function ChartData(sc: Scores): (d: seq<ChartBar>) {
    [ ChartBar("Speed", sc.speed),
      ChartBar("Acceleration", sc.acceleration as real),
      ChartBar("Stability", sc.stability as real),
      ChartBar("Manoueverability", sc.manoeuverability as real),
      ChartBar("Comfort", sc.comfort as real) ]
  }

  /** A valid selection's fields lie in the catalogs' value ranges. */
  lemma ValidSelectionRanges(s: Selection)
    requires ValidSelection(s)
    ensures 1 <= s.wheelSize <= 13 && 1 <= s.wheelDuro <= 6 && 1 <= s.deckWidth <= 10
    ensures 1 <= s.concave <= 4 && 1 <= s.abec <= 5
  {
  }

  /** The converse: every selection within the catalog ranges is valid. */
  lemma RangesAreValid(s: Selection)
    requires 1 <= s.wheelSize <= 13 && 1 <= s.wheelDuro <= 6 && 1 <= s.deckWidth <= 10
    requires 1 <= s.concave <= 4 && 1 <= s.abec <= 5
    ensures ValidSelection(s)
  {
    CatalogsDenselyNumbered();
    InCatalogIffInRange(WheelSizes, s.wheelSize);
    InCatalogIffInRange(WheelDuros, s.wheelDuro);
    InCatalogIffInRange(DeckWidths, s.deckWidth);
    InCatalogIffInRange(Concaves, s.concave);
    InCatalogIffInRange(Abecs, s.abec);
  }

  /** Exact ranges of each score over valid selections, all inside the chart axis. */
  lemma ScoreRanges(s: Selection)
    requires ValidSelection(s)
    ensures 3.8 <= Speed(s) <= 28.8
    ensures 2 <= Acceleration(s) <= 26
    ensures 3 <= Stability(s) <= 18 && 2 <= Manoeuverability(s) <= 17
    ensures 3 <= Comfort(s) <= 27
  {
  }

  /** Every score of a valid selection fits the chart's fixed axis [0, 31]. */
  lemma ScoresFitChartAxis(s: Selection)
    requires ValidSelection(s)
    ensures forall b :: b in ChartData(Derive(s)) ==> AxisMin <= b.score <= AxisMax
  {
    ScoreRanges(s);
  }

  /** The ranges are tight: each bound is reached by some valid selection. */
  lemma ScoreBoundsReached()
    ensures ValidSelection(Selection(1, 1, 1, 1, 1)) && ValidSelection(Selection(13, 6, 10, 4, 5))
    ensures ValidSelection(Selection(1, 1, 1, 4, 1)) && ValidSelection(Selection(1, 1, 10, 1, 1))
    ensures Speed(Selection(1, 1, 1, 1, 1)) == 3.8 && Speed(Selection(13, 6, 10, 4, 5)) == 28.8
    ensures Acceleration(Selection(1, 1, 1, 1, 1)) == 26 && Acceleration(Selection(13, 6, 10, 4, 5)) == 2
    ensures Stability(Selection(1, 1, 1, 4, 1)) == 3 && Stability(Selection(1, 1, 10, 1, 1)) == 18
    ensures Manoeuverability(Selection(1, 1, 10, 1, 1)) == 2 && Manoeuverability(Selection(1, 1, 1, 4, 1)) == 17
    ensures Comfort(Selection(1, 1, 1, 1, 1)) == 27 && Comfort(Selection(13, 6, 10, 4, 5)) == 3
  {
    RangesAreValid(Selection(1, 1, 1, 1, 1));
    RangesAreValid(Selection(13, 6, 10, 4, 5));
    RangesAreValid(Selection(1, 1, 1, 4, 1));
    RangesAreValid(Selection(1, 1, 10, 1, 1));
  }

  /** Acceleration strictly falls as the wheel size grows, and only then. */
  lemma AccelerationDecreasing(s: Selection, t: Selection)
    ensures s.wheelSize < t.wheelSize <==> Acceleration(t) < Acceleration(s)
  {
  }

  /** Acceleration is even, 26 for the smallest wheel and 2 for the largest. */
  lemma AccelerationExtremes(s: Selection)
    ensures Acceleration(s) % 2 == 0
    ensures Acceleration(s) == 26 <==> s.wheelSize == 1
    ensures Acceleration(s) == 2 <==> s.wheelSize == 13
  {
  }

  /** Stability and manoeuverability trade off: they sum to twice the widest deck. */
  lemma StabilityPlusManoeuverability(s: Selection)
    ensures Stability(s) + Manoeuverability(s) == 2 * LastValue(DeckWidths) == 20
  {
  }

  /** Comfort is a multiple of 3 and never rises with a harder wheel or a steeper concave. */
  lemma ComfortMonotone(s: Selection, t: Selection)
    ensures Comfort(s) % 3 == 0
    ensures s.wheelDuro <= t.wheelDuro && s.concave <= t.concave ==> Comfort(t) <= Comfort(s)
  {
  }

  /** Changing only the ABEC rating changes only speed, and changes it whenever the rating differs. */
  lemma AbecChangesOnlySpeed(s: Selection, v: int)
    ensures Derive(s.(abec := v)) == Derive(s).(speed := Speed(s.(abec := v)))
    ensures Speed(s.(abec := v)) == Speed(s) <==> v == s.abec
  {
  }

  /** Changing only the wheel size changes at most speed and acceleration. */
  lemma WheelSizeChangesSpeedAndAcceleration(s: Selection, v: int)
    ensures var t := s.(wheelSize := v);
      Derive(t) == Derive(s).(speed := Speed(t), acceleration := Acceleration(t))
  {
  }

  /** Changing only the durometer changes at most speed and comfort. */
  lemma WheelDuroChangesSpeedAndComfort(s: Selection, v: int)
    ensures var t := s.(wheelDuro := v);
      Derive(t) == Derive(s).(speed := Speed(t), comfort := Comfort(t))
  {
  }

  /** Changing only the deck width changes only stability and manoeuverability. */
  lemma DeckWidthChangesStabilityAndManoeuverability(s: Selection, v: int)
    ensures var t := s.(deckWidth := v);
      Derive(t) == Derive(s).(stability := Stability(t), manoeuverability := Manoeuverability(t))
  {
  }

  /** Changing only the concave changes at most stability, manoeuverability and comfort. */
  lemma ConcaveChangesStabilityManoeuverabilityAndComfort(s: Selection, v: int)
    ensures var t := s.(concave := v);
      Derive(t) == Derive(s).(stability := Stability(t), manoeuverability := Manoeuverability(t),
                              comfort := Comfort(t))
  {
  }

  /** The default selection is valid and derives speed 14.0, acceleration 16,
      stability 9, manoeuverability 11 and comfort 15. */
  lemma DefaultScores()
    ensures ValidSelection(DefaultSelection)
    ensures Derive(DefaultSelection) == Scores(14.0, 16, 9, 11, 15)
  {
    RangesAreValid(DefaultSelection);
  }
}
