/** `ApiController.search`, the `/search` endpoint: aggregate the providers,
    answer a client error when no clinic was retrieved, search otherwise. */
module Endpoint {
  import opened Wrappers
  import opened Model
  import opened Aggregator
  import opened SearchEngine

  /** What the endpoint can answer instead of a list of clinics. */
  datatype ApiError = BadRequest(message: string) | SearchRejected(cause: SearchError)

  const NoClinicsMessage: string :=
    "No Clinics. It might be wrong provider URL or error in network connection. Please try again later..."

  /** The search answer, or its rejection, as the endpoint passes it on. */
  function Relay(found: Result<seq<ClinicResponse>, SearchError>): Result<seq<ClinicResponse>, ApiError>
  {
    match found
    case Success(responses) => Success(responses)
    case Failure(e) => Failure(SearchRejected(e))
  }

  /** The endpoint: the service searches only a non-empty aggregate. */
  method HandleSearch(outcomes: seq<FetchOutcome>, filter: Option<ClinicFilter>, parse: Parser)
    returns (r: Result<seq<ClinicResponse>, ApiError>)
    ensures r == Failure(BadRequest(NoClinicsMessage)) <==> TotalCount(outcomes) == 0
    ensures TotalCount(outcomes) > 0 ==> r == Relay(SearchResult(Aggregate(outcomes, parse), filter, parse))
  {
    var sources := GetSources(outcomes, parse);
    AggregateLength(outcomes, parse);
    if |sources| == 0 {
      return Failure(BadRequest(NoClinicsMessage));
    }
    var found := Search(sources, filter, parse);
    r := Relay(found);
  }

  /** Every raw item of every provider names its clinic (`name` or
      `clinicName` truthy). */
  ghost predicate AllItemsNamed(outcomes: seq<FetchOutcome>)
  {
    forall p, j :: 0 <= p < |outcomes| && 0 <= j < |GetSource(outcomes[p])| ==>
      Truthy(GetSource(outcomes[p])[j].name) || Truthy(GetSource(outcomes[p])[j].clinicName)
  }

  /** When every item is named, every aggregated record has a name. */
  lemma {:induction false} AggregateNamed(outcomes: seq<FetchOutcome>, parse: Parser)
    requires AllItemsNamed(outcomes)
    ensures forall i :: 0 <= i < |Aggregate(outcomes, parse)| ==> Aggregate(outcomes, parse)[i].name.Some?
  {
    if outcomes != [] {
      var init, last := outcomes[..|outcomes| - 1], outcomes[|outcomes| - 1];
      assert outcomes == init + [last];
      AggregateAppend(init, [last], parse);
      AggregateSingle(last, parse);
      assert AllItemsNamed(init) by {
        forall p, j | 0 <= p < |init| && 0 <= j < |GetSource(init[p])|
          ensures Truthy(GetSource(init[p])[j].name) || Truthy(GetSource(init[p])[j].clinicName)
        {
          assert init[p] == outcomes[p];
        }
      }
      AggregateNamed(init, parse);
      var head, tail := Aggregate(init, parse), NormalizeAll(GetSource(last), parse);
      forall i | 0 <= i < |tail| ensures tail[i].name.Some? {
        NormalizeAllAt(GetSource(last), i, parse);
        NameAliasPriority(GetSource(last)[i], parse);
        assert outcomes[|outcomes| - 1] == last;
      }
    }
  }

  /** When every item is named, searching the aggregate is never rejected,
      whatever the filter. */
  lemma NamedItemsNeverRejected(outcomes: seq<FetchOutcome>, filter: Option<ClinicFilter>, parse: Parser)
    requires AllItemsNamed(outcomes)
    ensures SearchResult(Aggregate(outcomes, parse), filter, parse).Success?
  {
    AggregateNamed(outcomes, parse);
  }

  /** When every fetch failed, no item was returned: the count that
      `HandleSearch`'s first postcondition maps to the client error is zero. */
  lemma AllFailedCountsNothing(outcomes: seq<FetchOutcome>)
    requires forall i :: 0 <= i < |outcomes| ==> outcomes[i].FetchFailed?
    ensures TotalCount(outcomes) == 0
  {
  }
}
