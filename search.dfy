/** `ApiService.search`: a stable filter that keeps a record exactly when
    every active criterion of the filter is satisfied, counted with the two
    counters `total` and `success`, followed by the projection of each kept
    record into a `ClinicResponse`. */
module SearchEngine {
  import opened Wrappers
  import opened Text
  import opened Model

  /** The `TypeError` thrown when the name criterion is active and a record
      has no name: `toLowerCase` is read from `undefined`. It rejects the
      whole search. */
  datatype SearchError = UndefinedName

  // ---- The criteria ----

  /** The name criterion is active when `filter.name` is truthy. */
  predicate NameActive(f: ClinicFilter)
  {
    Truthy(f.name)
  }

  /** The state criterion is active when `filter.state` is truthy. */
  predicate StateActive(f: ClinicFilter)
  {
    Truthy(f.state)
  }

  /** The time criteria are looked at only when `from` or `to` is truthy. */
  predicate TimesRequested(f: ClinicFilter)
  {
    Truthy(f.from) || Truthy(f.to)
  }

  /** The parsed `from` bound; the from criterion is active when it exists. */
  function FromBound(f: ClinicFilter, parse: Parser): Option<TimeValue>
  {
    if TimesRequested(f) then parse(f.from) else None
  }

  /** The parsed `to` bound; the to criterion is active when it exists. */
  function ToBound(f: ClinicFilter, parse: Parser): Option<TimeValue>
  {
    if TimesRequested(f) then parse(f.to) else None
  }

  /** The record's name contains the filter's name, ignoring case. */
  predicate NameSatisfied(item: Clinic, f: ClinicFilter)
    requires NameActive(f)
  {
    item.name.Some? && IncludesIgnoreCase(item.name.value, f.name.value)
  }

  /** The record has a state and it contains the filter's state, ignoring case. */
  predicate StateSatisfied(item: Clinic, f: ClinicFilter)
    requires StateActive(f)
  {
    item.state.Some? && IncludesIgnoreCase(item.state.value, f.state.value)
  }

  /** The clinic is known to open at or before `bound`. */
  predicate OpensBy(item: Clinic, bound: TimeValue)
  {
    item.from.Some? && item.from.value.value <= bound.value
  }

  /** The clinic is known to close at or after `bound`. */
  predicate ClosesFrom(item: Clinic, bound: TimeValue)
  {
    item.to.Some? && item.to.value.value >= bound.value
  }

  /** Every active criterion is satisfied: the inclusion rule, stated
      without counters. */
  predicate MatchesAll(item: Clinic, f: ClinicFilter, parse: Parser)
  {
    (NameActive(f) ==> NameSatisfied(item, f)) &&
    (StateActive(f) ==> StateSatisfied(item, f)) &&
    (FromBound(f, parse).Some? ==> OpensBy(item, FromBound(f, parse).value)) &&
    (ToBound(f, parse).Some? ==> ClosesFrom(item, ToBound(f, parse).value))
  }

  /** How many criteria of the filter are active. */
  function ActiveCount(f: ClinicFilter, parse: Parser): nat
  {
    (if NameActive(f) then 1 else 0) +
    (if StateActive(f) then 1 else 0) +
    (if FromBound(f, parse).Some? then 1 else 0) +
    (if ToBound(f, parse).Some? then 1 else 0)
  }

  /** The two counters of one record. */
  datatype Tally = Tally(total: nat, success: nat)

  /** The body of the `forEach` callback up to the final comparison: count
      the active criteria and the satisfied ones. The counters are equal
      exactly when every active criterion is satisfied. */
  method CountCriteria(item: Clinic, f: ClinicFilter, parse: Parser) returns (r: Result<Tally, SearchError>)
    ensures r.Failure? <==> NameActive(f) && item.name.None?
    ensures r.Success? ==> r.value.total == ActiveCount(f, parse) && r.value.success <= r.value.total
    ensures r.Success? ==> (r.value.total == r.value.success <==> MatchesAll(item, f, parse))
  {
    var total, success := 0, 0;

    if Truthy(f.name) {
      total := total + 1;
      if item.name.None? {
        return Failure(UndefinedName);
      }
      success := success + if IncludesIgnoreCase(item.name.value, f.name.value) then 1 else 0;
    }

    if Truthy(f.state) {
      total := total + 1;
      success := success + if item.state.Some? && IncludesIgnoreCase(item.state.value, f.state.value) then 1 else 0;
    }

    if Truthy(f.from) || Truthy(f.to) {
      var from := parse(f.from);
      var to := parse(f.to);
      if from.Some? {
        total := total + 1;
        success := success + if item.from.Some? && item.from.value.value <= from.value.value then 1 else 0;
      }
      if to.Some? {
        total := total + 1;
        success := success + if item.to.Some? && item.to.value.value >= to.value.value then 1 else 0;
      }
    }

    r := Success(Tally(total, success));
  }

  // ---- The filter ----

  /** The records that match every active criterion, in their input order. */
  function Selected(items: seq<Clinic>, f: ClinicFilter, parse: Parser): (r: seq<Clinic>)
    ensures |r| <= |items|
  {
    if items == [] then []
    else
      var last := items[|items| - 1];
      var kept := Selected(items[..|items| - 1], f, parse);
      if MatchesAll(last, f, parse) then kept + [last] else kept
  }

  /** Appending one record keeps it after the others exactly when it
      matches. */
  lemma SelectedSnoc(items: seq<Clinic>, x: Clinic, f: ClinicFilter, parse: Parser)
    ensures Selected(items + [x], f, parse) ==
            if MatchesAll(x, f, parse) then Selected(items, f, parse) + [x] else Selected(items, f, parse)
  {
    assert (items + [x])[..|items|] == items;
  }

  /** Some record has no name while the name criterion is active. */
  predicate NameCrash(items: seq<Clinic>, f: ClinicFilter)
  {
    NameActive(f) && exists i :: 0 <= i < |items| && items[i].name.None?
  }

  // ---- The projection ----

  /** The `availability` display string: `from.at`, then ` ~ ` and `to.at`
      when the closing time is known. */
  function AvailabilityText(from: Option<TimeValue>, to: Option<TimeValue>): string
  {
    match (from, to)
    case (None, None) => ""
    case (Some(a), None) => a.at
    case (Some(a), Some(b)) => a.at + " ~ " + b.at
    case (None, Some(b)) => " ~ " + b.at
  }

  /** The response for one record: name and state copied, availability text. */
  function ResponseOf(item: Clinic): ClinicResponse
  {
    ClinicResponse(item.name, item.state, AvailabilityText(item.from, item.to))
  }

  /** One response per record, in the same order. */
  function Responses(items: seq<Clinic>): (r: seq<ClinicResponse>)
    ensures |r| == |items|
    ensures forall k :: 0 <= k < |items| ==> r[k] == ResponseOf(items[k])
  {
    seq(|items|, k requires 0 <= k < |items| => ResponseOf(items[k]))
  }

  /** The body of the projection loop: `availability` starts empty, becomes
      the opening time when known, and gets ` ~ ` and the closing time
      appended when that is known. */
  method Respond(item: Clinic) returns (obj: ClinicResponse)
    ensures obj == ResponseOf(item)
  {
    obj := ClinicResponse(item.name, item.state, "");
    if item.from.Some? {
      obj := obj.(availability := item.from.value.at);
    }
    if item.to.Some? {
      obj := obj.(availability := obj.availability + " ~ " + item.to.value.at);
    }
  }

  // ---- The search ----

  /** What `search` resolves to: every record when there is no filter;
      otherwise a rejection when a nameless record meets an active name
      criterion, and the responses of the matching records if not. */
  function SearchResult(sources: seq<Clinic>, filter: Option<ClinicFilter>, parse: Parser)
    : Result<seq<ClinicResponse>, SearchError>
  {
    match filter
    case None => Success(Responses(sources))
    case Some(f) =>
      if NameCrash(sources, f) then Failure(UndefinedName)
      else Success(Responses(Selected(sources, f, parse)))
  }

  /** The `sources.forEach` loop of `search` when a filter is given: keep
      each record whose counters agree, or stop at the first record that
      makes the name criterion throw. */
  method FilterByCriteria(sources: seq<Clinic>, f: ClinicFilter, parse: Parser)
    returns (r: Result<seq<Clinic>, SearchError>)
    ensures r.Failure? <==> NameCrash(sources, f)
    ensures r.Success? ==> r.value == Selected(sources, f, parse)
  {
    var filtered: seq<Clinic> := [];
    var i := 0;
    while i < |sources|
      invariant 0 <= i <= |sources|
      invariant filtered == Selected(sources[..i], f, parse)
      invariant !NameCrash(sources[..i], f)
    {
      var item := sources[i];
      assert sources[..i + 1] == sources[..i] + [item];
      var tally := CountCriteria(item, f, parse);
      if tally.Failure? {
        assert NameCrash(sources, f) by {
          assert sources[i].name.None?;
        }
        return Failure(UndefinedName);
      }
      var keep := tally.value.total == tally.value.success;
      if keep {
        filtered := filtered + [item];
      }
      SelectedSnoc(sources[..i], item, f, parse);
      i := i + 1;
    }
    assert sources[..i] == sources;
    r := Success(filtered);
  }

  /** The `filtered.forEach` loop of `search`: one response per kept record,
      in order. */
  method Project(filtered: seq<Clinic>) returns (out: seq<ClinicResponse>)
    ensures out == Responses(filtered)
  {
    out := [];
    var k := 0;
    while k < |filtered|
      invariant 0 <= k <= |filtered|
      invariant |out| == k
      invariant forall j :: 0 <= j < k ==> out[j] == ResponseOf(filtered[j])
    {
      var obj := Respond(filtered[k]);
      out := out + [obj];
      k := k + 1;
    }
  }

  /** `search`: all records when there is no filter, the records whose
      counters agree otherwise, each projected into a response. */
  method Search(sources: seq<Clinic>, filter: Option<ClinicFilter>, parse: Parser)
    returns (res: Result<seq<ClinicResponse>, SearchError>)
    ensures res == SearchResult(sources, filter, parse)
  {
    var filtered: seq<Clinic>;
    if filter.None? {
      filtered := sources;
    } else {
      var kept := FilterByCriteria(sources, filter.value, parse);
      if kept.Failure? {
        return Failure(UndefinedName);
      }
      filtered := kept.value;
    }
    var out := Project(filtered);
    res := Success(out);
  }

  // ---- Properties of the criteria ----

  /** A filter without active criteria matches every record; a filter with
      at least one active criterion rejects a record that has no fields. */
  lemma NoActiveCriteriaMatchesAll(f: ClinicFilter, parse: Parser)
    ensures ActiveCount(f, parse) == 0 ==> forall c :: MatchesAll(c, f, parse)
    ensures ActiveCount(f, parse) == 0 <==> MatchesAll(Clinic(None, None, None, None), f, parse)
  {
  }

  /** A record without a state never satisfies an active state criterion. */
  lemma AbsentStateNeverMatches(item: Clinic, f: ClinicFilter, parse: Parser)
    requires StateActive(f) && item.state.None?
    ensures !MatchesAll(item, f, parse)
  {
  }

  /** A record whose time is unknown fails the corresponding active time
      criterion; each bound is checked on its own. */
  lemma AbsentTimeFailsCriterion(item: Clinic, f: ClinicFilter, parse: Parser)
    ensures FromBound(f, parse).Some? && item.from.None? ==> !MatchesAll(item, f, parse)
    ensures ToBound(f, parse).Some? && item.to.None? ==> !MatchesAll(item, f, parse)
  {
  }

  /** With a parser that maps an undefined or empty string to "no time",
      a time bound is active exactly when that bound itself is truthy and
      parses; the other bound does not switch it on. */
  lemma TimeBoundsIndependent(f: ClinicFilter, parse: Parser)
    requires parse(None) == None && parse(Some("")) == None
    ensures FromBound(f, parse) == (if Truthy(f.from) then parse(f.from) else None)
    ensures ToBound(f, parse) == (if Truthy(f.to) then parse(f.to) else None)
  {
  }

  // ---- Properties of the filter ----

  /** Filtering distributes over concatenation: kept records stay in their
      relative order. */
  lemma {:induction false} SelectedAppend(a: seq<Clinic>, b: seq<Clinic>, f: ClinicFilter, parse: Parser)
    ensures Selected(a + b, f, parse) == Selected(a, f, parse) + Selected(b, f, parse)
  {
    if b == [] {
      assert a + b == a;
    } else {
      var b' := b[..|b| - 1];
      assert (a + b)[..|a + b| - 1] == a + b';
      assert (a + b)[|a + b| - 1] == b[|b| - 1];
      SelectedAppend(a, b', f, parse);
    }
  }

  /** A record is kept exactly when it is one of the input records and it
      matches every active criterion. */
  lemma {:induction false} SelectedMembership(items: seq<Clinic>, c: Clinic, f: ClinicFilter, parse: Parser)
    ensures c in Selected(items, f, parse) <==> c in items && MatchesAll(c, f, parse)
  {
    if items != [] {
      var init := items[..|items| - 1];
      assert items == init + [items[|items| - 1]];
      SelectedMembership(init, c, f, parse);
    }
  }

  /** When every record matches, the filter keeps the list unchanged. */
  lemma {:induction false} SelectedAllMatching(items: seq<Clinic>, f: ClinicFilter, parse: Parser)
    requires forall i :: 0 <= i < |items| ==> MatchesAll(items[i], f, parse)
    ensures Selected(items, f, parse) == items
  {
    if items != [] {
      var init := items[..|items| - 1];
      SelectedAllMatching(init, f, parse);
      assert init + [items[|items| - 1]] == items;
    }
  }

  /** Filtering twice is filtering once. */
  lemma {:induction false} SelectedIdempotent(items: seq<Clinic>, f: ClinicFilter, parse: Parser)
    ensures Selected(Selected(items, f, parse), f, parse) == Selected(items, f, parse)
  {
    var kept := Selected(items, f, parse);
    forall i | 0 <= i < |kept| ensures MatchesAll(kept[i], f, parse) {
      SelectedMembership(items, kept[i], f, parse);
    }
    SelectedAllMatching(kept, f, parse);
  }

  // ---- Properties of the search ----

  /** Without a filter every record is answered, in order, with its name and
      state unchanged. */
  lemma SearchWithoutFilter(sources: seq<Clinic>, parse: Parser)
    ensures SearchResult(sources, None, parse).Success?
    ensures |SearchResult(sources, None, parse).value| == |sources|
    ensures forall i :: 0 <= i < |sources| ==>
              SearchResult(sources, None, parse).value[i].name == sources[i].name &&
              SearchResult(sources, None, parse).value[i].state == sources[i].state
  {
  }

  /** A filter none of whose fields is truthy (`{}` or all empty strings)
      answers every record, exactly as no filter does. */
  lemma EmptyFilterAnswersAll(sources: seq<Clinic>, f: ClinicFilter, parse: Parser)
    requires !Truthy(f.name) && !Truthy(f.state) && !Truthy(f.from) && !Truthy(f.to)
    ensures SearchResult(sources, Some(f), parse) == SearchResult(sources, None, parse)
  {
    SearchAllMatching(sources, f, parse);
  }

  /** When every record matches, the filtered search answers every record,
      as no filter does; a matching record has a name whenever the name
      criterion is active, so none makes that criterion throw. */
  lemma SearchAllMatching(sources: seq<Clinic>, f: ClinicFilter, parse: Parser)
    requires forall i :: 0 <= i < |sources| ==> MatchesAll(sources[i], f, parse)
    ensures SearchResult(sources, Some(f), parse) == Success(Responses(sources))
  {
    forall i | 0 <= i < |sources| && NameActive(f) ensures sources[i].name.Some? {
      assert MatchesAll(sources[i], f, parse);
    }
    assert !NameCrash(sources, f);
    SelectedAllMatching(sources, f, parse);
  }

  /** The search is rejected exactly when a filter is given, its name
      criterion is active and some record has no name. */
  lemma SearchFailsOnlyOnNamelessRecord(sources: seq<Clinic>, filter: Option<ClinicFilter>, parse: Parser)
    ensures SearchResult(sources, filter, parse).Failure? <==>
            filter.Some? && NameActive(filter.value) && exists i :: 0 <= i < |sources| && sources[i].name.None?
  {
  }

  /** A successful filtered search answers, in input order, exactly the
      records that match every active criterion. */
  lemma SearchAnswersMatching(sources: seq<Clinic>, f: ClinicFilter, parse: Parser, c: Clinic)
    requires SearchResult(sources, Some(f), parse).Success?
    ensures SearchResult(sources, Some(f), parse).value == Responses(Selected(sources, f, parse))
    ensures ResponseOf(c) in SearchResult(sources, Some(f), parse).value <==>
            exists d :: d in sources && MatchesAll(d, f, parse) && ResponseOf(d) == ResponseOf(c)
  {
    var kept := Selected(sources, f, parse);
    var answer := Responses(kept);
    if ResponseOf(c) in answer {
      var k :| 0 <= k < |answer| && answer[k] == ResponseOf(c);
      SelectedMembership(sources, kept[k], f, parse);
    }
    if d :| d in sources && MatchesAll(d, f, parse) && ResponseOf(d) == ResponseOf(c) {
      SelectedMembership(sources, d, f, parse);
      var k :| 0 <= k < |kept| && kept[k] == d;
      assert answer[k] == ResponseOf(c);
    }
  }

  /** The availability text starts with the opening time when it is known
      and ends with ` ~ ` and the closing time when that is known; it is
      empty when neither is known. */
  lemma AvailabilityShape(from: Option<TimeValue>, to: Option<TimeValue>)
    ensures from.Some? ==> AvailabilityText(from, to)[..|from.value.at|] == from.value.at
    ensures to.Some? ==>
              (|AvailabilityText(from, to)| >= |to.value.at| + 3 &&
               AvailabilityText(from, to)[|AvailabilityText(from, to)| - |to.value.at| - 3..] == " ~ " + to.value.at)
    ensures from.None? && to.None? ==> AvailabilityText(from, to) == ""
  {
  }
}
