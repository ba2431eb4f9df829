/**
 * Building a story from its already-decoded JSON records (pkg/story/json.go).
 * The decoding itself is outside the model: the loader receives either the
 * records or the decoder's error.
 */
module JsonLoad {
  import opened Wrappers
  import opened Steps
  import opened Responses
  import opened Stories

  datatype JSONExpectGeo = JSONExpectGeo(lat: real, lon: real, precision: real)

  /**
   * One record of a story file (`expectText` is the "expect" key). Absent
   * pointer fields are None; `later` maps
   * a response index to a delay in seconds (an absent map reads as empty).
   */
  datatype JSONStep = JSONStep(
    command: bool,
    expectText: Option<string>,
    response: Option<string>,
    fail: string,
    responses: Option<seq<string>>,
    expectGeo: Option<JSONExpectGeo>,
    expectSave: Option<string>,
    later: map<int, int>)

  /** What the JSON decoder hands over. */
  datatype Decoded = Decoded(records: seq<JSONStep>) | DecodeError(message: string)

  /** The metadata that the `later` entries attach: index i gets "time" = later[i] seconds. */
  function TimeMetadata(later: map<int, int>): map<int, Metadata>
  {
    map i | i in later :: map["time" := Duration(Second * later[i])]
  }

  /** The step one record becomes. */
  function RecordStep(ss: JSONStep): StepValue
  {
    var responses :=
      if ss.response.Some? then [ss.response.value]
      else if ss.responses.Some? then ss.responses.value
      else [];
    var base := Blank.(failMessage := ss.fail, responses := responses);
    var expecting :=
      if ss.expectText.Some? then base.(expectation := ss.expectText.value)
      else if ss.expectGeo.Some? then
        base.(isGeo := true, geoExp := Geo(ss.expectGeo.value.lat, ss.expectGeo.value.lon, ss.expectGeo.value.precision))
      else if ss.expectSave.Some? then base.(store := Some(Store(ss.expectSave.value)))
      else base;
    expecting.(additional := TimeMetadata(ss.later))
  }

  /** One record taken into the story: commands by their expectation, the rest appended to the flow. */
  function Include(sv: StoryValue, ss: JSONStep): StoryValue
  {
    var st := RecordStep(ss);
    if ss.command then sv.(cmds := sv.cmds[st.expectation := st]) else sv.(steps := sv.steps + [st])
  }

  /** The story the loader builds from the records, taken in file order. */
  function Loaded(records: seq<JSONStep>): StoryValue
  {
    if records == [] then EmptyStory
    else Include(Loaded(records[..|records| - 1]), records[|records| - 1])
  }

  /**
   * The body of Load's loop up to the Add: a fresh step configured through
   * its setters from one record.
   */
  method BuildStep(ss: JSONStep) returns (step: Step)
    ensures fresh(step)
    ensures step.Value() == RecordStep(ss)
  {
    step := new Step();
    step := step.Fail(ss.fail);
    if ss.response.Some? {
      step := step.Respond([ss.response.value]);
    } else if ss.responses.Some? {
      step := step.Respond(ss.responses.value);
    }
    if ss.expectText.Some? {
      step := step.Expect(ss.expectText.value);
    } else if ss.expectGeo.Some? {
      var g := ss.expectGeo.value;
      step := step.ExpectGeo(g.lat, g.lon, g.precision);
    } else if ss.expectSave.Some? {
      step := step.ExpectSave(Store(ss.expectSave.value));
    }
    AttachLater(step, ss.later);
  }

  /** The `for i, t := range ss.Later` loop: Additional(i, "time", t seconds) for every entry. */
  method AttachLater(step: Step, later: map<int, int>)
    requires step.additional == map[]
    modifies step
    ensures step.Value() == old(step.Value()).(additional := TimeMetadata(later))
  {
    var keys := later.Keys;
    while keys != {}
      invariant keys <= later.Keys
      invariant step.Value() == old(step.Value()).(additional := step.additional)
      invariant step.additional == map j | j in later && j !in keys :: map["time" := Duration(Second * later[j])]
      decreases keys
    {
      SomeKey(keys);
      var j :| j in keys;
      var _ := step.Additional(j, "time", Duration(Second * later[j]));
      keys := keys - {j};
      forall j' | j' in later && j' !in keys
        ensures j' in step.additional && step.additional[j'] == map["time" := Duration(Second * later[j'])]
      {
        assert MetadataAt(step.additional, j') == step.additional[j'];
      }
    }
  }

  lemma SomeKey(keys: set<int>)
    requires keys != {}
    ensures exists k :: k in keys
  {
    if forall k :: k !in keys {
      assert false;
    }
  }

  /** Load: an empty story and the error on a decoding failure, otherwise the story built record by record. */
  method Load(input: Decoded) returns (s: Story, err: Option<string>)
    ensures fresh(s)
    ensures input.DecodeError? ==> err == Some(input.message) && s.View() == EmptyStory
    ensures input.Decoded? ==> err == None && s.View() == Loaded(input.records)
  {
    s := new Story();
    if input.DecodeError? {
      return s, Some(input.message);
    }
    err := None;
    var records := input.records;
    var i := 0;
    while i < |records|
      invariant 0 <= i <= |records|
      invariant fresh(s)
      invariant s.View() == Loaded(records[..i])
    {
      ghost var before := s.View();
      var step := BuildStep(records[i]);
      assert s.View() == before;
      if records[i].command {
        s := s.AddCommand(step);
      } else {
        s := s.Add(step);
      }
      assert s.View() == Include(before, records[i]);
      assert records[..i + 1][..i] == records[..i];
      i := i + 1;
    }
    assert records[..|records|] == records;
  }

  // Properties of the loader

  /**
   * Precedence inside one record: "response" wins over "responses"; of
   * "expect", "expectGeo" and "expectSave" the first present one is applied
   * and the others are ignored; the fail message is always set; every `later`
   * entry i -> t becomes metadata "time" = t seconds on response i.
   */
  lemma RecordPrecedence(ss: JSONStep)
    ensures var st := RecordStep(ss);
      && st.failMessage == ss.fail
      && (ss.response.Some? ==> st.responses == [ss.response.value])
      && (ss.response.None? && ss.responses.Some? ==> st.responses == ss.responses.value)
      && (ss.response.None? && ss.responses.None? ==> st.responses == [])
      && (ss.expectText.Some? ==> st.expectation == ss.expectText.value && !st.isGeo && st.store.None?)
      && (ss.expectText.None? && ss.expectGeo.Some? ==> st.isGeo && st.store.None? && st.expectation == "")
      && (ss.expectText.None? && ss.expectGeo.None? && ss.expectSave.Some? ==>
            st.store == Some(Store(ss.expectSave.value)) && !st.isGeo && st.expectation == "")
      && !(st.isGeo && st.store.Some?)
      && forall i :: MetadataAt(st.additional, i) == (if i in ss.later then map["time" := Duration(Second * ss.later[i])] else map[])
  {
  }

  /** The records that are not commands, in file order. */
  function OrderedRecords(records: seq<JSONStep>): seq<JSONStep>
  {
    if records == [] then [] else (if records[0].command then [] else [records[0]]) + OrderedRecords(records[1..])
  }

  /** The steps a sequence of records becomes, one for one. */
  function RecordSteps(records: seq<JSONStep>): (sts: seq<StepValue>)
    ensures |sts| == |records|
    ensures forall i :: 0 <= i < |records| ==> sts[i] == RecordStep(records[i])
  {
    if records == [] then [] else [RecordStep(records[0])] + RecordSteps(records[1..])
  }

  lemma {:induction false} OrderedRecordsAppend(records: seq<JSONStep>, ss: JSONStep)
    ensures OrderedRecords(records + [ss]) == OrderedRecords(records) + (if ss.command then [] else [ss])
  {
    if records == [] {
      assert records + [ss] == [ss];
    } else {
      assert (records + [ss])[1..] == records[1..] + [ss];
      OrderedRecordsAppend(records[1..], ss);
    }
  }

  /** The ordered flow of the loaded story is the non-command records, in file order. */
  lemma {:induction false} LoadedSteps(records: seq<JSONStep>)
    ensures Loaded(records).steps == RecordSteps(OrderedRecords(records))
  {
    if records != [] {
      var init, last := records[..|records| - 1], records[|records| - 1];
      assert records == init + [last];
      LoadedSteps(init);
      OrderedRecordsAppend(init, last);
    }
  }

  /** The command key of a record: its expectation once loaded. */
  function CommandKey(ss: JSONStep): string
  {
    RecordStep(ss).expectation
  }

  /** Record i is the last command record of the file with key k. */
  predicate LastCommandFor(records: seq<JSONStep>, i: int, k: string)
  {
    && 0 <= i < |records|
    && records[i].command
    && CommandKey(records[i]) == k
    && forall j :: i < j < |records| && records[j].command ==> CommandKey(records[j]) != k
  }

  /**
   * The command table holds exactly the keys of the command records, each
   * bound to the step of the last command record with that key.
   */
  lemma {:induction false} LoadedCommands(records: seq<JSONStep>, k: string)
    ensures k in Loaded(records).cmds <==> exists i :: 0 <= i < |records| && records[i].command && CommandKey(records[i]) == k
    ensures k in Loaded(records).cmds ==> exists i :: LastCommandFor(records, i, k) && Loaded(records).cmds[k] == RecordStep(records[i])
  {
    if records != [] {
      var n := |records| - 1;
      var init, last := records[..n], records[n];
      assert records == init + [last];
      LoadedCommands(init, k);
      if last.command && CommandKey(last) == k {
        assert LastCommandFor(records, n, k);
      } else if k in Loaded(init).cmds {
        var i :| LastCommandFor(init, i, k) && Loaded(init).cmds[k] == RecordStep(init[i]);
        assert LastCommandFor(records, i, k);
      } else {
        forall i | 0 <= i < |records| && records[i].command
          ensures CommandKey(records[i]) != k
        {
          if i < n {
            assert init[i] == records[i];
          }
        }
      }
    }
  }

  /** The loader never registers unordered steps or translations. */
  lemma {:induction false} LoadedSideTablesEmpty(records: seq<JSONStep>)
    ensures Loaded(records).unordered == map[] && Loaded(records).i18n == map[]
  {
    if records != [] {
      LoadedSideTablesEmpty(records[..|records| - 1]);
    }
  }

  /**
   * Loading then resolving reproduces the file: an input that no language
   * switch or command claims is answered, at position p, from the
   * (p mod n)-th non-command record: its responses verbatim on a match, its
   * fail message otherwise.
   */
  lemma LoadedThenResolved(records: seq<JSONStep>, env: Oracles, p: nat, m: string)
    requires OrderedRecords(records) != []
    requires ParseUnordered(Loaded(records), m).None?
    ensures CanResolve(Loaded(records), m)
    ensures var os := OrderedRecords(records);
      var rec := os[p % |os|];
      var rs := Resolve(Loaded(records), env, p, "", m);
      && (IsExpectationCorrect(Loaded(records), env, m, "en", RecordStep(rec)) ==> Originals(rs) == RecordStep(rec).responses)
      && (!IsExpectationCorrect(Loaded(records), env, m, "en", RecordStep(rec)) ==> Originals(rs) == [rec.fail])
  {
    var os := OrderedRecords(records);
    LoadedSteps(records);
    AnsweredByRecord(Loaded(records), env, p, m, os[p % |os|]);
  }

  lemma AnsweredByRecord(sv: StoryValue, env: Oracles, p: nat, m: string, rec: JSONStep)
    requires |sv.steps| > 0 && ParseUnordered(sv, m).None? && sv.steps[p % |sv.steps|] == RecordStep(rec)
    ensures var rs := Resolve(sv, env, p, "", m);
      && (IsExpectationCorrect(sv, env, m, "en", RecordStep(rec)) ==> Originals(rs) == RecordStep(rec).responses)
      && (!IsExpectationCorrect(sv, env, m, "en", RecordStep(rec)) ==> Originals(rs) == [rec.fail])
  {
    OrderedAnswers(sv, env, p, "", m);
  }
}
