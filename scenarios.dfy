/** Worked examples stated as lemmas. "Good Health Home", "FL", "Florida"
    and "09:00 ~ 20:00" are the controller's schema examples; the clinic
    names "A" and "B" and the other times are illustrative. The time parser
    is left abstract: each lemma only fixes what it answers for the strings
    involved. */
module Scenarios {
  import opened Wrappers
  import opened Text
  import opened Model
  import opened Aggregator
  import opened SearchEngine

  /** "Good Health Home" matches the name filter "health", ignoring case. */
  lemma NameMatchIgnoresCase()
    ensures IncludesIgnoreCase("Good Health Home", "health")
  {
    var hay, needle := "Good Health Home", "health";
    assert hay[5..11] == "Health";
    OccursIgnoringCase(hay, needle, 5);
  }

  /** "Florida" contains "FL" ignoring case, and "FL" contains it trivially. */
  lemma StateMatchIgnoresCase()
    ensures IncludesIgnoreCase("Florida", "FL")
    ensures IncludesIgnoreCase("FL", "FL")
  {
    OccursIgnoringCase("Florida", "FL", 0);
    OccursIgnoringCase("FL", "FL", 0);
  }

  /** A clinic open 09:00 to 18:00 covers the window 10:00 to 17:00, but
      does not open by 08:00. */
  lemma WindowCoverage(parse: Parser)
    requires parse(Some("10:00")) == Some(TimeValue(600, "10:00"))
    requires parse(Some("17:00")) == Some(TimeValue(1020, "17:00"))
    requires parse(Some("08:00")) == Some(TimeValue(480, "08:00"))
    requires parse(None) == None
    ensures var clinic := Clinic(Some("C"), None, Some(TimeValue(540, "09:00")), Some(TimeValue(1080, "18:00")));
            MatchesAll(clinic, ClinicFilter(None, None, Some("10:00"), Some("17:00")), parse) &&
            !MatchesAll(clinic, ClinicFilter(None, None, Some("08:00"), None), parse)
  {
  }

  /** The first provider's item: `clinicName`, `stateCode`, `opening`. */
  const ItemA := RawRecord(None, Some("A"), None, Some("FL"), None, Some(Window(Some("09:00"), Some("20:00"))), None)

  /** The second provider's item: `name`, `state`, `availability`. */
  const ItemB := RawRecord(Some("B"), None, Some("Florida"), None, None, None, Some(Window(Some("08:00"), Some("17:00"))))

  const ClinicA := Clinic(Some("A"), Some("FL"), Some(TimeValue(540, "09:00")), Some(TimeValue(1200, "20:00")))
  const ClinicB := Clinic(Some("B"), Some("Florida"), Some(TimeValue(480, "08:00")), Some(TimeValue(1020, "17:00")))

  /** A parser that reads the four times of the two-provider scenario. */
  predicate ReadsScenarioTimes(parse: Parser)
  {
    parse(Some("09:00")) == Some(TimeValue(540, "09:00")) &&
    parse(Some("20:00")) == Some(TimeValue(1200, "20:00")) &&
    parse(Some("08:00")) == Some(TimeValue(480, "08:00")) &&
    parse(Some("17:00")) == Some(TimeValue(1020, "17:00"))
  }

  /** Two providers of one item each aggregate to the two canonical
      records, in provider order. */
  lemma AggregateTwoSingletons(x: RawRecord, y: RawRecord, parse: Parser)
    ensures Aggregate([Fetched([x]), Fetched([y])], parse) == [Canonical(x, parse), Canonical(y, parse)]
  {
    assert [Fetched([x]), Fetched([y])] == [Fetched([x])] + [Fetched([y])];
    AggregateAppend([Fetched([x])], [Fetched([y])], parse);
    AggregateSingle(Fetched([x]), parse);
    AggregateSingle(Fetched([y]), parse);
    NormalizeAllAt([x], 0, parse);
    NormalizeAllAt([y], 0, parse);
  }

  /** Each item is normalised through its own aliases. */
  lemma ScenarioCanonical(parse: Parser)
    requires ReadsScenarioTimes(parse)
    ensures Canonical(ItemA, parse) == ClinicA
    ensures Canonical(ItemB, parse) == ClinicB
  {
    NameAliasPriority(ItemA, parse);
    StateAliasPriority(ItemA, parse);
    NameAliasPriority(ItemB, parse);
    StateAliasPriority(ItemB, parse);
  }

  /** The state filter "FL" is the only active criterion, and both clinics
      satisfy it. */
  lemma BothMatchState(parse: Parser)
    ensures MatchesAll(ClinicA, ClinicFilter(None, Some("FL"), None, None), parse)
    ensures MatchesAll(ClinicB, ClinicFilter(None, Some("FL"), None, None), parse)
  {
    StateMatchIgnoresCase();
  }

  /** The availability texts of the two clinics. */
  lemma ScenarioAvailability()
    ensures AvailabilityText(ClinicA.from, ClinicA.to) == "09:00 ~ 20:00"
    ensures AvailabilityText(ClinicB.from, ClinicB.to) == "08:00 ~ 17:00"
  {
  }

  /** Two records that both match a filter are both answered, in order. */
  lemma SearchTwoMatching(a: Clinic, b: Clinic, f: ClinicFilter, parse: Parser)
    requires MatchesAll(a, f, parse) && MatchesAll(b, f, parse)
    ensures SearchResult([a, b], Some(f), parse) == Success([ResponseOf(a), ResponseOf(b)])
  {
    var clinics := [a, b];
    assert forall i :: 0 <= i < |clinics| ==> clinics[i] == a || clinics[i] == b;
    SearchAllMatching(clinics, f, parse);
    var answer := Responses(clinics);
    assert answer == [answer[0], answer[1]];
  }

  /** Searching the two providers for state "FL" answers both clinics,
      since "florida" contains "fl", with their availability texts. */
  lemma TwoProvidersByState(parse: Parser)
    requires ReadsScenarioTimes(parse)
    ensures SearchResult(Aggregate([Fetched([ItemA]), Fetched([ItemB])], parse),
                         Some(ClinicFilter(None, Some("FL"), None, None)), parse) ==
            Success([ResponseOf(ClinicA), ResponseOf(ClinicB)])
    ensures ResponseOf(ClinicA) == ClinicResponse(Some("A"), Some("FL"), "09:00 ~ 20:00")
    ensures ResponseOf(ClinicB) == ClinicResponse(Some("B"), Some("Florida"), "08:00 ~ 17:00")
  {
    AggregateTwoSingletons(ItemA, ItemB, parse);
    ScenarioCanonical(parse);
    BothMatchState(parse);
    SearchTwoMatching(ClinicA, ClinicB, ClinicFilter(None, Some("FL"), None, None), parse);
    ScenarioAvailability();
  }
}
