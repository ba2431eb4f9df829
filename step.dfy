/**
 * One node of a story script (pkg/story/step.go): what it expects, what it
 * answers, what it says on a wrong answer, and per-response metadata.
 * Steps are built by chained setters that change the step in place, so a
 * Step is a class; `Value()` is its current contents as a plain value.
 */
module Steps {
  import opened Wrappers

  /** A Go time.Duration, counted in nanoseconds. */
  datatype Duration = Duration(nanos: int)

  /** time.Second */
  const Second: int := 1_000_000_000

  /** The metadata attached to one response, field name to value ("time" to a delay). */
  type Metadata = map<string, Duration>

  /** The geolocation expectation: latitude, longitude and precision in meters. */
  datatype Geo = Geo(lat: real, lon: real, precision: real)

  /** A save collaborator (a store.Step): the target it writes to. */
  datatype Store = Store(target: string)

  /** The contents of a step at one moment. */
  datatype StepValue = StepValue(
    expectation: string,
    responses: seq<string>,
    failMessage: string,
    isGeo: bool,
    geoExp: Geo,
    store: Option<Store>,
    additional: map<int, Metadata>)

  /** The zero step that NewStep returns. */
  const Blank: StepValue := StepValue("", [], "", false, Geo(0.0, 0.0, 0.0), None, map[])

  /** The metadata of response `i`; a missing entry reads as an empty map, as a nil Go map does. */
  function MetadataAt(additional: map<int, Metadata>, i: int): Metadata
  {
    if i in additional then additional[i] else map[]
  }

  class Step {
    var expectation: string
    var responses: seq<string>
    var failMessage: string
    var isGeo: bool
    var geoExp: Geo
    var store: Option<Store>
    var additional: map<int, Metadata>

    function Value(): StepValue
      reads this
    {
      StepValue(expectation, responses, failMessage, isGeo, geoExp, store, additional)
    }

    /** NewStep: an empty expectation, no responses, no geo flag, no store, no metadata. */
    constructor ()
      ensures Value() == Blank
    {
      expectation, responses, failMessage := "", [], "";
      isGeo, geoExp, store, additional := false, Geo(0.0, 0.0, 0.0), None, map[];
    }

    /** The first response; Go indexes the slice, so the step must have one. */
    function Response(): (r: string)
      reads this
      requires |responses| > 0
      ensures [r] == responses[..1]
    {
      responses[0]
    }

    method Expect(e: string) returns (s: Step)
      modifies this
      ensures s == this
      ensures Value() == old(Value()).(expectation := e)
    {
      expectation := e;
      s := this;
    }

    /** Respond replaces the whole list of responses by its (variadic) arguments. */
    method Respond(rs: seq<string>) returns (s: Step)
      modifies this
      ensures s == this
      ensures Value() == old(Value()).(responses := rs)
    {
      responses := rs;
      s := this;
    }

    method Fail(e: string) returns (s: Step)
      modifies this
      ensures s == this
      ensures Value() == old(Value()).(failMessage := e)
    {
      failMessage := e;
      s := this;
    }

    method ExpectGeo(lat: real, lon: real, precision: real) returns (s: Step)
      modifies this
      ensures s == this
      ensures Value() == old(Value()).(isGeo := true, geoExp := Geo(lat, lon, precision))
    {
      isGeo := true;
      geoExp := Geo(lat, lon, precision);
      s := this;
    }

    method ExpectSave(st: Store) returns (s: Step)
      modifies this
      ensures s == this
      ensures Value() == old(Value()).(store := Some(st))
    {
      store := Some(st);
      s := this;
    }

    /**
     * Additional(i, field, value) sets additional[i][field] to value, creating
     * the inner map when it is missing, and leaves every other (index, field)
     * entry as it was.
     */
    method Additional(i: int, field: string, value: Duration) returns (s: Step)
      modifies this
      ensures s == this
      ensures Value() == old(Value()).(additional := additional)
      ensures additional.Keys == old(additional).Keys + {i}
      ensures MetadataAt(additional, i) == MetadataAt(old(additional), i)[field := value]
      ensures forall j :: j != i ==> MetadataAt(additional, j) == MetadataAt(old(additional), j)
    {
      var inner := MetadataAt(additional, i);
      additional := additional[i := inner[field := value]];
      s := this;
    }
  }
}
