/** The calculator's state: five selection fields, five score fields, and one
    setter per attribute that stores the chosen value and then recomputes the
    scores that depend on it, as one synchronous step. */
module Calculator {
  import opened Catalogs
  import opened Deriver

  class SetupCalculator {
    var wheelSize: int
    var wheelDuro: int
    var deckWidth: int
    var concave: int
    var abec: int

    var speed: real
    var acceleration: int
    var stability: int
    var manoeuverability: int
    var comfort: int

    /** The current selection. */
    function Selected(): (s: Selection)
      reads this
    {
      Selection(wheelSize, wheelDuro, deckWidth, concave, abec)
    }

    /** The scores currently shown. */
    function Shown(): (sc: Scores)
      reads this
    {
      Scores(speed, acceleration, stability, manoeuverability, comfort)
    }

    /** The selection is made of catalog values and the shown scores are
        exactly those derived from it. */
    ghost predicate Valid()
      reads this
    {
      ValidSelection(Selected()) && Shown() == Derive(Selected())
    }

    /** The state once the initial effects have run on the default selection. */
    constructor ()
      ensures Valid()
      ensures Selected() == DefaultSelection
      ensures Shown() == Scores(14.0, 16, 9, 11, 15)
    {
      wheelSize, wheelDuro, deckWidth, concave, abec := 6, 4, 3, 2, 2;
      var s := Selection(6, 4, 3, 2, 2);
      speed := Speed(s);
      acceleration := Acceleration(s);
      stability := Stability(s);
      manoeuverability := Manoeuverability(s);
      comfort := Comfort(s);
      DefaultScores();
    }

    /** The bars handed to the chart for the current scores; each fits the axis. */
    method Chart() returns (d: seq<ChartBar>)
      requires Valid()
      ensures d == ChartData(Derive(Selected()))
      ensures forall b :: b in d ==> AxisMin <= b.score <= AxisMax
    {
      d := ChartData(Shown());
      ScoresFitChartAxis(Selected());
    }

    method SetWheelSize(v: int)
      requires Valid() && InCatalog(WheelSizes, v)
      modifies this
      ensures Valid()
      ensures Selected() == old(Selected()).(wheelSize := v)
      ensures Shown() == old(Shown()).(speed := Speed(Selected()), acceleration := Acceleration(Selected()))
      ensures v == old(wheelSize) ==> Shown() == old(Shown())
    {
      wheelSize := v;
      speed := Speed(Selected());
      acceleration := Acceleration(Selected());
      WheelSizeChangesSpeedAndAcceleration(old(Selected()), v);
    }

    method SetWheelDuro(v: int)
      requires Valid() && InCatalog(WheelDuros, v)
      modifies this
      ensures Valid()
      ensures Selected() == old(Selected()).(wheelDuro := v)
      ensures Shown() == old(Shown()).(speed := Speed(Selected()), comfort := Comfort(Selected()))
      ensures v == old(wheelDuro) ==> Shown() == old(Shown())
    {
      wheelDuro := v;
      speed := Speed(Selected());
      comfort := Comfort(Selected());
      WheelDuroChangesSpeedAndComfort(old(Selected()), v);
    }

    method SetDeckWidth(v: int)
      requires Valid() && InCatalog(DeckWidths, v)
      modifies this
      ensures Valid()
      ensures Selected() == old(Selected()).(deckWidth := v)
      ensures Shown() == old(Shown()).(stability := Stability(Selected()),
                                       manoeuverability := Manoeuverability(Selected()))
      ensures v == old(deckWidth) ==> Shown() == old(Shown())
    {
      deckWidth := v;
      stability := Stability(Selected());
      manoeuverability := Manoeuverability(Selected());
      DeckWidthChangesStabilityAndManoeuverability(old(Selected()), v);
    }

    method SetConcave(v: int)
      requires Valid() && InCatalog(Concaves, v)
      modifies this
      ensures Valid()
      ensures Selected() == old(Selected()).(concave := v)
      ensures Shown() == old(Shown()).(stability := Stability(Selected()),
                                       manoeuverability := Manoeuverability(Selected()),
                                       comfort := Comfort(Selected()))
      ensures v == old(concave) ==> Shown() == old(Shown())
    {
      concave := v;
      stability := Stability(Selected());
      manoeuverability := Manoeuverability(Selected());
      comfort := Comfort(Selected());
      ConcaveChangesStabilityManoeuverabilityAndComfort(old(Selected()), v);
    }

    method SetAbec(v: int)
      requires Valid() && InCatalog(Abecs, v)
      modifies this
      ensures Valid()
      ensures Selected() == old(Selected()).(abec := v)
      ensures Shown() == old(Shown()).(speed := Speed(Selected()))
      ensures v == old(abec) ==> Shown() == old(Shown())
    {
      abec := v;
      speed := Speed(Selected());
      AbecChangesOnlySpeed(old(Selected()), v);
    }
  }
}
