/** Two worked appointment windows: an ordinary afternoon slot, and a slot
    whose end runs past midnight, which the calendar writes with an hour of 24
    rather than rolling over to the next day. Each fact about one string is a
    lemma of its own, which keeps every proof small. */
module TimeExamples {
  import opened Wrappers
  import opened TimeWindow

  lemma ReadsFourteenThirty()
    ensures ReadsAs("14:30", Clock(14, 30))
  {
    TextRoundTrip(Clock(14, 30), "14:30");
  }

  lemma ReadsFifteenFifteen()
    ensures ReadsAs("15:15", Clock(15, 15))
  {
    TextRoundTrip(Clock(15, 15), "15:15");
  }

  lemma ReadsTwentyThreeFifty()
    ensures ReadsAs("23:50", Clock(23, 50))
  {
    TextRoundTrip(Clock(23, 50), "23:50");
  }

  lemma ReadsTwentyFourTwenty()
    ensures ReadsAs("24:20", Clock(24, 20))
  {
    TextRoundTrip(Clock(24, 20), "24:20");
  }

  /** The minute overflow of both examples is carried into the hour. */
  lemma ExampleEnds()
    ensures EndClock(Clock(14, 30), 45) == Clock(15, 15)
    ensures EndClock(Clock(23, 50), 30) == Clock(24, 20)
  {
  }

  /** 14:30 plus 45 minutes ends at 15:15. */
  lemma WindowExampleAfternoon()
    ensures DeriveWindow("14:30", 45) == Some(Window("14:30", "15:15"))
  {
    ReadsFourteenThirty();
    ReadsFifteenFifteen();
    ExampleEnds();
  }

  /** 23:50 plus 30 minutes ends at 24:20: the hour runs past midnight and
      there is no rollover to the next day. */
  lemma WindowExampleMidnight()
    ensures DeriveWindow("23:50", 30) == Some(Window("23:50", "24:20"))
  {
    ReadsTwentyThreeFifty();
    ReadsTwentyFourTwenty();
    ExampleEnds();
  }
}
