/** The records the service passes around: raw provider items, the
    canonical `Clinic`, the caller's `ClinicFilter` and the `ClinicResponse`
    projection. In the service these are loosely typed JavaScript objects;
    here every field that can be missing is an `Option`. */
module Model {
  import opened Wrappers

  /** A parsed time of day: `value` orders times, `at` is its display form. */
  datatype TimeValue = TimeValue(value: int, at: string)

  /** The time parser of the utilities module. It is called with whatever
      the caller holds, including an undefined value, so its input is
      optional; a result of `None` stands for "could not parse". */
  type Parser = Option<string> -> Option<TimeValue>

  /** A time-window container of a raw item (`opening` or `availability`). */
  datatype Window = Window(from: Option<string>, to: Option<string>)

  /** A raw provider item: only the keys the normaliser looks at. */
  datatype RawRecord = RawRecord(
    name: Option<string>,
    clinicName: Option<string>,
    state: Option<string>,
    stateCode: Option<string>,
    stateName: Option<string>,
    opening: Option<Window>,
    availability: Option<Window>)

  /** The canonical clinic record. */
  datatype Clinic = Clinic(
    name: Option<string>,
    state: Option<string>,
    from: Option<TimeValue>,
    to: Option<TimeValue>)

  /** The search criteria; each field may be missing. */
  datatype ClinicFilter = ClinicFilter(
    name: Option<string>,
    state: Option<string>,
    from: Option<string>,
    to: Option<string>)

  /** One element of the search answer. */
  datatype ClinicResponse = ClinicResponse(
    name: Option<string>,
    state: Option<string>,
    availability: string)

  /** JavaScript truthiness of a string-valued field: defined and non-empty. */
  predicate Truthy(s: Option<string>)
  {
    s.Some? && s.value != ""
  }
}
