/** `ApiService.getSources` and the fetch contract of `ApiService.getSource`:
    every raw item of every provider becomes one canonical `Clinic`, chosen
    field by field through ordered alias lists, and all of them are appended
    to one list, provider by provider. */
module Aggregator {
  import opened Wrappers
  import opened Model

  /** What fetching one provider URL produced: the response body, or a
      failure (network error, non-2xx status) that was caught and logged. */
  datatype FetchOutcome = Fetched(data: seq<RawRecord>) | FetchFailed

  /** `getSource`: the body of a successful fetch, the empty list otherwise. */
  function GetSource(outcome: FetchOutcome): (items: seq<RawRecord>)
    ensures outcome.FetchFailed? ==> items == []
    ensures outcome.Fetched? ==> items == outcome.data
  {
    match outcome
    case Fetched(data) => data
    case FetchFailed => []
  }

  /** `aliases[i]` is the first truthy entry of the alias list. */
  ghost predicate IsFirstTruthy(aliases: seq<Option<string>>, i: int)
  {
    0 <= i < |aliases| && Truthy(aliases[i]) &&
    forall j :: 0 <= j < i ==> !Truthy(aliases[j])
  }

  /** Alias resolution as an ordered table: the value of the first truthy
      alias, or nothing when no alias is truthy. */
  function FirstTruthy(aliases: seq<Option<string>>): Option<string>
  {
    if aliases == [] then None
    else if Truthy(aliases[0]) then aliases[0]
    else FirstTruthy(aliases[1..])
  }

  /** The first truthy alias wins and every later alias is ignored; when no
      alias is truthy the field stays absent. */
  lemma {:induction false} FirstTruthyIsFirst(aliases: seq<Option<string>>)
    ensures FirstTruthy(aliases).None? <==> forall i :: 0 <= i < |aliases| ==> !Truthy(aliases[i])
    ensures FirstTruthy(aliases).Some? ==>
              exists i :: IsFirstTruthy(aliases, i) && aliases[i] == FirstTruthy(aliases)
  {
    if aliases != [] && !Truthy(aliases[0]) {
      var rest := aliases[1..];
      FirstTruthyIsFirst(rest);
      assert forall i :: 1 <= i < |aliases| ==> aliases[i] == rest[i - 1];
      if FirstTruthy(rest).Some? {
        var i :| IsFirstTruthy(rest, i) && rest[i] == FirstTruthy(rest);
        assert IsFirstTruthy(aliases, i + 1);
      }
    }
  }

  /** The time-window container of an item: `opening` whenever it exists,
      `availability` only when `opening` does not. */
  function WindowOf(item: RawRecord): Option<Window>
  {
    if item.opening.Some? then item.opening else item.availability
  }

  /** A raw time string is handed to the parser only when it is truthy. */
  function TimeOf(raw: Option<string>, parse: Parser): Option<TimeValue>
  {
    if Truthy(raw) then parse(raw) else None
  }

  /** The canonical record of a raw item, field by field from the alias tables. */
  function Canonical(item: RawRecord, parse: Parser): Clinic
  {
    var window := WindowOf(item);
    Clinic(
      FirstTruthy([item.name, item.clinicName]),
      FirstTruthy([item.state, item.stateCode, item.stateName]),
      if window.Some? then TimeOf(window.value.from, parse) else None,
      if window.Some? then TimeOf(window.value.to, parse) else None)
  }

  /** The body of the `forEach` callback: a fresh `Clinic` whose fields are
      assigned one by one through the `if` / `else if` chains. */
  method NormalizeRecord(item: RawRecord, parse: Parser) returns (obj: Clinic)
    ensures obj == Canonical(item, parse)
  {
    obj := Clinic(None, None, None, None);
    if Truthy(item.name) {
      obj := obj.(name := item.name);
    } else if Truthy(item.clinicName) {
      obj := obj.(name := item.clinicName);
    }

    if Truthy(item.state) {
      obj := obj.(state := item.state);
    } else if Truthy(item.stateCode) {
      obj := obj.(state := item.stateCode);
    } else if Truthy(item.stateName) {
      obj := obj.(state := item.stateName);
    }

    if item.opening.Some? {
      if Truthy(item.opening.value.from) {
        obj := obj.(from := parse(item.opening.value.from));
      }
      if Truthy(item.opening.value.to) {
        obj := obj.(to := parse(item.opening.value.to));
      }
    } else if item.availability.Some? {
      if Truthy(item.availability.value.from) {
        obj := obj.(from := parse(item.availability.value.from));
      }
      if Truthy(item.availability.value.to) {
        obj := obj.(to := parse(item.availability.value.to));
      }
    }
    NameAliasPriority(item, parse);
    StateAliasPriority(item, parse);
  }

  /** One provider's items, normalised one by one, in their order. */
  function NormalizeAll(items: seq<RawRecord>, parse: Parser): (r: seq<Clinic>)
    ensures |r| == |items|
  {
    if items == [] then []
    else NormalizeAll(items[..|items| - 1], parse) + [Canonical(items[|items| - 1], parse)]
  }

  /** Normalising one more item appends its canonical record. */
  lemma NormalizeAllSnoc(items: seq<RawRecord>, x: RawRecord, parse: Parser)
    ensures NormalizeAll(items + [x], parse) == NormalizeAll(items, parse) + [Canonical(x, parse)]
  {
    assert (items + [x])[..|items|] == items;
  }

  /** One canonical record per raw item, at the same position. */
  lemma {:induction false} NormalizeAllAt(items: seq<RawRecord>, k: nat, parse: Parser)
    requires k < |items|
    ensures NormalizeAll(items, parse)[k] == Canonical(items[k], parse)
  {
    if k < |items| - 1 {
      NormalizeAllAt(items[..|items| - 1], k, parse);
    }
  }

  /** Concatenation of a list of lists, in order. */
  function Flatten<T>(xss: seq<seq<T>>): seq<T>
  {
    if xss == [] then [] else Flatten(xss[..|xss| - 1]) + xss[|xss| - 1]
  }

  /** Each provider's records, normalised, one list per provider. */
  function PerProvider(outcomes: seq<FetchOutcome>, parse: Parser): (r: seq<seq<Clinic>>)
    ensures |r| == |outcomes|
    ensures forall p :: 0 <= p < |outcomes| ==> r[p] == NormalizeAll(GetSource(outcomes[p]), parse)
  {
    seq(|outcomes|, p requires 0 <= p < |outcomes| => NormalizeAll(GetSource(outcomes[p]), parse))
  }

  /** The aggregated list: each provider's records appended after those of
      the providers before it. */
  function Aggregate(outcomes: seq<FetchOutcome>, parse: Parser): seq<Clinic>
  {
    Flatten(PerProvider(outcomes, parse))
  }

  /** Number of items the providers returned, failed ones counting zero. */
  function TotalCount(outcomes: seq<FetchOutcome>): nat
  {
    if outcomes == [] then 0
    else TotalCount(outcomes[..|outcomes| - 1]) + |GetSource(outcomes[|outcomes| - 1])|
  }

  /** `getSources`: for each provider in order, fetch it and push the
      canonical record of every item it returned. */
  method GetSources(outcomes: seq<FetchOutcome>, parse: Parser) returns (sources: seq<Clinic>)
    ensures sources == Aggregate(outcomes, parse)
  {
    sources := [];
    var p := 0;
    while p < |outcomes|
      invariant 0 <= p <= |outcomes|
      invariant sources == Aggregate(outcomes[..p], parse)
    {
      var clinics := GetSource(outcomes[p]);
      sources := PushNormalized(sources, clinics, parse);
      assert outcomes[..p + 1] == outcomes[..p] + [outcomes[p]];
      AggregateAppend(outcomes[..p], [outcomes[p]], parse);
      AggregateSingle(outcomes[p], parse);
      p := p + 1;
    }
    assert outcomes[..p] == outcomes;
  }

  /** The `clinics.forEach` loop of `getSources`: normalise each item of one
      provider and push it onto `sources`. */
  method PushNormalized(sources: seq<Clinic>, clinics: seq<RawRecord>, parse: Parser)
    returns (result: seq<Clinic>)
    ensures result == sources + NormalizeAll(clinics, parse)
  {
    result := sources;
    var j := 0;
    while j < |clinics|
      invariant 0 <= j <= |clinics|
      invariant result == sources + NormalizeAll(clinics[..j], parse)
    {
      var obj := NormalizeRecord(clinics[j], parse);
      result := result + [obj];
      assert clinics[..j + 1] == clinics[..j] + [clinics[j]];
      NormalizeAllSnoc(clinics[..j], clinics[j], parse);
      j := j + 1;
    }
    assert clinics[..j] == clinics;
  }

  // ---- Properties of normalisation ----

  /** Name: `name` if truthy, else `clinicName` if truthy, else absent. */
  lemma NameAliasPriority(item: RawRecord, parse: Parser)
    ensures Truthy(item.name) ==> Canonical(item, parse).name == item.name
    ensures !Truthy(item.name) && Truthy(item.clinicName) ==> Canonical(item, parse).name == item.clinicName
    ensures !Truthy(item.name) && !Truthy(item.clinicName) ==> Canonical(item, parse).name.None?
  {
    var aliases := [item.name, item.clinicName];
    assert aliases[0] == item.name && aliases[1] == item.clinicName;
    var r := FirstTruthy(aliases);
    FirstTruthyIsFirst(aliases);
    if r.Some? {
      var i :| IsFirstTruthy(aliases, i) && aliases[i] == r;
      assert i == 0 <==> Truthy(item.name);
    }
  }

  /** State: `state`, else `stateCode`, else `stateName`, else absent. */
  lemma StateAliasPriority(item: RawRecord, parse: Parser)
    ensures Truthy(item.state) ==> Canonical(item, parse).state == item.state
    ensures !Truthy(item.state) && Truthy(item.stateCode) ==> Canonical(item, parse).state == item.stateCode
    ensures !Truthy(item.state) && !Truthy(item.stateCode) && Truthy(item.stateName) ==>
              Canonical(item, parse).state == item.stateName
    ensures !Truthy(item.state) && !Truthy(item.stateCode) && !Truthy(item.stateName) ==>
              Canonical(item, parse).state.None?
  {
    var aliases := [item.state, item.stateCode, item.stateName];
    assert aliases[0] == item.state && aliases[1] == item.stateCode && aliases[2] == item.stateName;
    var r := FirstTruthy(aliases);
    FirstTruthyIsFirst(aliases);
    if r.Some? {
      var i :| IsFirstTruthy(aliases, i) && aliases[i] == r;
      assert i == 0 <==> Truthy(item.state);
      assert i == 1 <==> !Truthy(item.state) && Truthy(item.stateCode);
    }
  }

  /** A canonical name or state, when present, is never the empty string. */
  lemma CanonicalFieldsTruthy(item: RawRecord, parse: Parser)
    ensures Canonical(item, parse).name.Some? ==> Truthy(Canonical(item, parse).name)
    ensures Canonical(item, parse).state.Some? ==> Truthy(Canonical(item, parse).state)
  {
    NameAliasPriority(item, parse);
    StateAliasPriority(item, parse);
  }

  /** When `opening` exists, `availability` is never consulted: two items
      that differ only in `availability` normalise to the same record. */
  lemma OpeningShadowsAvailability(a: RawRecord, b: RawRecord, parse: Parser)
    requires a.opening.Some? && b == a.(availability := b.availability)
    ensures Canonical(a, parse) == Canonical(b, parse)
  {
  }

  /** An `opening` container without truthy `from`/`to` leaves both times
      absent, whatever `availability` holds. */
  lemma EmptyOpeningLeavesTimesAbsent(item: RawRecord, parse: Parser)
    requires item.opening.Some?
    requires !Truthy(item.opening.value.from) && !Truthy(item.opening.value.to)
    ensures Canonical(item, parse).from.None? && Canonical(item, parse).to.None?
  {
  }

  // ---- Properties of aggregation ----

  /** Flattening distributes over concatenation. */
  lemma {:induction false} FlattenAppend<T>(a: seq<seq<T>>, b: seq<seq<T>>)
    ensures Flatten(a + b) == Flatten(a) + Flatten(b)
  {
    if b == [] {
      assert a + b == a;
    } else {
      var b' := b[..|b| - 1];
      assert (a + b)[..|a + b| - 1] == a + b';
      FlattenAppend(a, b');
    }
  }

  /** Splitting the provider list splits the per-provider lists. */
  lemma PerProviderAppend(a: seq<FetchOutcome>, b: seq<FetchOutcome>, parse: Parser)
    ensures PerProvider(a + b, parse) == PerProvider(a, parse) + PerProvider(b, parse)
  {
  }

  /** Aggregation distributes over splitting the provider list. */
  lemma AggregateAppend(a: seq<FetchOutcome>, b: seq<FetchOutcome>, parse: Parser)
    ensures Aggregate(a + b, parse) == Aggregate(a, parse) + Aggregate(b, parse)
  {
    PerProviderAppend(a, b, parse);
    FlattenAppend(PerProvider(a, parse), PerProvider(b, parse));
  }

  /** The aggregate of one provider is that provider's normalised items. */
  lemma AggregateSingle(outcome: FetchOutcome, parse: Parser)
    ensures Aggregate([outcome], parse) == NormalizeAll(GetSource(outcome), parse)
  {
    var pp := PerProvider([outcome], parse);
    assert pp[..|pp| - 1] == [] && pp[|pp| - 1] == NormalizeAll(GetSource(outcome), parse);
    assert Flatten(pp) == Flatten(pp[..|pp| - 1]) + pp[|pp| - 1];
    assert Flatten<Clinic>([]) == [];
  }

  /** The aggregate has one record per item returned by a provider. */
  lemma {:induction false} AggregateLength(outcomes: seq<FetchOutcome>, parse: Parser)
    ensures |Aggregate(outcomes, parse)| == TotalCount(outcomes)
  {
    if outcomes != [] {
      var init := outcomes[..|outcomes| - 1];
      assert outcomes == init + [outcomes[|outcomes| - 1]];
      AggregateAppend(init, [outcomes[|outcomes| - 1]], parse);
      AggregateSingle(outcomes[|outcomes| - 1], parse);
      AggregateLength(init, parse);
    }
  }

  /** Item `j` of provider `k` lands at position `TotalCount(outcomes[..k]) + j`:
      providers in order, each provider's items in its own order. */
  lemma AggregateLayout(outcomes: seq<FetchOutcome>, k: nat, j: nat, parse: Parser)
    requires k < |outcomes| && j < |GetSource(outcomes[k])|
    ensures TotalCount(outcomes[..k]) + j < |Aggregate(outcomes, parse)|
    ensures Aggregate(outcomes, parse)[TotalCount(outcomes[..k]) + j] ==
            Canonical(GetSource(outcomes[k])[j], parse)
  {
    var before, here, after := outcomes[..k], [outcomes[k]], outcomes[k + 1..];
    assert outcomes == before + here + after;
    AggregateAppend(before + here, after, parse);
    AggregateAppend(before, here, parse);
    AggregateSingle(outcomes[k], parse);
    AggregateLength(before, parse);
    NormalizeAllAt(GetSource(outcomes[k]), j, parse);
  }

  /** A provider whose fetch failed contributes nothing and does not disturb
      the records of the others. */
  lemma FailedProviderContributesNothing(a: seq<FetchOutcome>, b: seq<FetchOutcome>, parse: Parser)
    ensures Aggregate(a + [FetchFailed] + b, parse) == Aggregate(a + b, parse)
  {
    AggregateAppend(a + [FetchFailed], b, parse);
    AggregateAppend(a, [FetchFailed], parse);
    AggregateAppend(a, b, parse);
    AggregateSingle(FetchFailed, parse);
  }

  /** When every fetch failed, the aggregate is empty. */
  lemma {:induction false} AllFailedIsEmpty(outcomes: seq<FetchOutcome>, parse: Parser)
    requires forall i :: 0 <= i < |outcomes| ==> outcomes[i].FetchFailed?
    ensures Aggregate(outcomes, parse) == []
  {
    if outcomes != [] {
      var init := outcomes[..|outcomes| - 1];
      assert outcomes == init + [FetchFailed];
      AggregateAppend(init, [FetchFailed], parse);
      AggregateSingle(FetchFailed, parse);
      AllFailedIsEmpty(init, parse);
    }
  }
}
