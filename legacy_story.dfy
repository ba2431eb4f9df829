/**
 * The first generation of the story engine (story/story.go, story/step.go,
 * story/i18n.go): one response per step, a current step index that the story
 * itself advances, and a story-wide language chosen by "/<lang>" commands.
 * Steps and stories are built by setters that change them in place, so both
 * are classes; `Value()` and `View()` give their contents as plain values.
 */
module LegacyStory {
  import opened Wrappers
  import opened GoStrings
  import Steps
  import I18n
  import Modulo

  /** The answer to "/en", and the key of each language's own confirmation line. */
  const LanguageChanged: string := "Language changed"

  /** I18nMap.Line of this generation: a missing language or line reads as Go's zero value "". */
  function Line(m: I18n.I18nMap, line: string, lang: string): string
  {
    if lang in m && line in m[lang] then m[lang][line] else ""
  }

  /**
   * Where a translation exists both generations of Line give it; where it is
   * missing this one gives "" and the current one gives the line back.
   */
  lemma LineAgainstCurrent(m: I18n.I18nMap, line: string, lang: string)
    ensures lang in m && line in m[lang] ==> Line(m, line, lang) == I18n.Line(m, line, lang) == m[lang][line]
    ensures !(lang in m && line in m[lang]) ==> Line(m, line, lang) == "" && I18n.Line(m, line, lang) == line
  {
  }

  /**
   * getI18nLine: with no language set the line is kept; with one set, the
   * line is looked up as the current generation's Line does.
   */
  function I18nLine(i18n: I18n.I18nMap, lang: string, l: string): (r: string)
    ensures lang == "" ==> r == l
    ensures lang != "" ==> r == I18n.Line(i18n, l, lang)
  {
    if lang != "" && lang in i18n && l in i18n[lang] then i18n[lang][l] else l
  }

  /** The contents of a step: one response, and an optional geolocation expectation. */
  datatype StepValue = StepValue(expectation: string, response: string, failMessage: string, isGeo: bool, geoExp: Steps.Geo)

  /** The zero step that NewStep returns. */
  const Blank: StepValue := StepValue("", "", "", false, Steps.Geo(0.0, 0.0, 0.0))

  class Step {
    var expectation: string
    var response: string
    var failMessage: string
    var isGeo: bool
    var geoExp: Steps.Geo

    function Value(): StepValue
      reads this
    {
      StepValue(expectation, response, failMessage, isGeo, geoExp)
    }

    /** NewStep */
    constructor ()
      ensures Value() == Blank
    {
      expectation, response, failMessage := "", "", "";
      isGeo, geoExp := false, Steps.Geo(0.0, 0.0, 0.0);
    }

    method Expect(e: string) returns (s: Step)
      modifies this
      ensures s == this
      ensures Value() == old(Value()).(expectation := e)
    {
      expectation := e;
      s := this;
    }

    method Respond(r: string) returns (s: Step)
      modifies this
      ensures s == this
      ensures Value() == old(Value()).(response := r)
    {
      response := r;
      s := this;
    }

    method Fail(e: string) returns (s: Step)
      modifies this
      ensures s == this
      ensures Value() == old(Value()).(failMessage := e)
    {
      failMessage := e;
      s := this;
    }

    method ExpectGeo(lat: real, lon: real, precision: real) returns (s: Step)
      modifies this
      ensures s == this
      ensures Value() == old(Value()).(isGeo := true, geoExp := Steps.Geo(lat, lon, precision))
    {
      isGeo := true;
      geoExp := Steps.Geo(lat, lon, precision);
      s := this;
    }
  }

  /**
   * Whether "<lat>,<lon>" lies within the precision of a geo expectation
   * (parsing and haversine over floats, outside the model).
   */
  type GeoCheck = (Steps.Geo, string) -> bool

  /** The contents of a story: its steps, the current step index, the translations and the language. */
  datatype StoryValue = StoryValue(steps: seq<StepValue>, cur: nat, i18n: I18n.I18nMap, lang: string)

  const EmptyStory: StoryValue := StoryValue([], 0, map[], "")

  /** The current index addresses a step as soon as there is one. */
  predicate Valid(sv: StoryValue)
  {
    sv.cur == 0 || sv.cur < |sv.steps|
  }

  /** The answer to a language command and the language the story is left in. */
  datatype LanguageAnswer = LanguageAnswer(text: string, lang: string)

  /**
   * parseI18nCommand: "/en" answers in English and keeps the language; "/c"
   * for a language c of the table switches to c and answers with that
   * language's confirmation line (Go's "" when it has none); anything else is
   * not a language command.
   */
  function LanguageCommand(sv: StoryValue, m: string): Option<LanguageAnswer>
  {
    if !HasPrefix(m, "/") then None
    else
      var c := m[1..];
      if c == "en" then Some(LanguageAnswer(LanguageChanged, sv.lang))
      else if c in sv.i18n then Some(LanguageAnswer(if LanguageChanged in sv.i18n[c] then sv.i18n[c][LanguageChanged] else "", c))
      else None
  }

  /** rotateStep */
  function RotateStep(sv: StoryValue, stp: nat): (r: nat)
    requires |sv.steps| > 0
    ensures r < |sv.steps|
    ensures stp < |sv.steps| ==> r == stp
  {
    stp % |sv.steps|
  }

  /**
   * isExpectationCorrect: whether `st` is matched is decided by the CURRENT
   * step's geo flag: a text match is exact against the translated
   * expectation of `st`, a geo match uses the current step's expectation.
   */
  predicate IsExpectationCorrect(sv: StoryValue, geo: GeoCheck, m: string, st: StepValue)
    requires sv.cur < |sv.steps|
  {
    var current := sv.steps[sv.cur];
    if !current.isGeo then I18nLine(sv.i18n, sv.lang, st.expectation) == m else geo(current.geoExp, m)
  }

  /** stepResponseOrFail: the translated response on a match, the translated fail message otherwise. */
  function StepAnswer(sv: StoryValue, geo: GeoCheck, m: string, stp: nat): (string, bool)
    requires stp < |sv.steps| && sv.cur < |sv.steps|
  {
    var st := sv.steps[stp];
    if IsExpectationCorrect(sv, geo, m, st) then (I18nLine(sv.i18n, sv.lang, st.response), true)
    else (I18nLine(sv.i18n, sv.lang, st.failMessage), false)
  }

  /**
   * RespondTo as a value: the story afterwards and the answer. Go indexes the
   * current step for anything but a language command, so the story then
   * needs a step.
   */
  function Answer(sv: StoryValue, geo: GeoCheck, m: string): (r: (StoryValue, string))
    requires Valid(sv) && (LanguageCommand(sv, m).Some? || sv.steps != [])
    ensures Valid(r.0) && r.0.steps == sv.steps && r.0.i18n == sv.i18n
  {
    match LanguageCommand(sv, m)
    case Some(a) => (sv.(lang := a.lang), a.text)
    case None =>
      var (text, ok) := StepAnswer(sv, geo, m, sv.cur);
      (if ok then sv.(cur := RotateStep(sv, sv.cur + 1)) else sv, text)
  }

  /** RespondWithStepTo as a value: the answer of the step at stp, taken modulo the number of steps. */
  function AnswerWithStep(sv: StoryValue, geo: GeoCheck, stp: nat, m: string): string
    requires Valid(sv) && sv.steps != []
  {
    StepAnswer(sv, geo, m, RotateStep(sv, stp)).0
  }

  class Story {
    var steps: seq<Step>
    var curStepIndex: nat
    var i18n: I18n.I18nMap
    var lang: string

    /** The story's contents as a value, read through every step it refers to. */
    function View(): StoryValue
      reads this, steps
    {
      StoryValue(seq(|steps|, i requires 0 <= i < |steps| reads this, steps => steps[i].Value()), curStepIndex, i18n, lang)
    }

    /** New */
    constructor ()
      ensures View() == EmptyStory
    {
      steps, curStepIndex, i18n, lang := [], 0, map[], "";
    }

    /** Add appends a step. */
    method Add(step: Step) returns (s: Story)
      modifies this
      ensures s == this
      ensures View() == old(View()).(steps := old(View().steps) + [step.Value()])
    {
      steps := steps + [step];
      s := this;
    }

    /** Step: the current step; Go indexes the slice, so there must be one. */
    function CurrentStep(): (st: Step)
      reads this, steps
      requires Valid(View()) && steps != []
      ensures st in steps && st.Value() == View().steps[View().cur]
    {
      steps[curStepIndex]
    }

    method I18n(m: I18n.I18nMap) returns (s: Story)
      modifies this
      ensures s == this
      ensures View() == old(View()).(i18n := m)
    {
      i18n := m;
      s := this;
    }

    /** Language */
    function Language(): (l: string)
      reads this, steps
      ensures l == View().lang
    {
      lang
    }

    method SetLanguage(l: string) returns (s: Story)
      modifies this
      ensures s == this
      ensures View() == old(View()).(lang := l)
    {
      lang := l;
      s := this;
    }

    /** parseI18nCommand, which switches the language itself for a language of the table. */
    method ParseI18nCommand(m: string) returns (response: string, ok: bool)
      modifies this
      ensures ok == LanguageCommand(old(View()), m).Some?
      ensures ok ==> response == LanguageCommand(old(View()), m).value.text
      ensures View() == old(View()).(lang := if ok then LanguageCommand(old(View()), m).value.lang else old(lang))
    {
      if !HasPrefix(m, "/") {
        return "", false;
      }
      var c := m[1..];
      if c == "en" {
        return LanguageChanged, true;
      }
      if c in i18n {
        var lines := i18n[c];
        var _ := SetLanguage(c);
        response := if LanguageChanged in lines then lines[LanguageChanged] else "";
        return response, true;
      }
      return "", false;
    }

    /** stepResponseOrFail, reading the current step for the geo flag. */
    method StepResponseOrFail(geo: GeoCheck, m: string, stp: nat) returns (response: string, ok: bool)
      requires stp < |steps| && curStepIndex < |steps|
      ensures (response, ok) == StepAnswer(View(), geo, m, stp)
    {
      var step := steps[stp];
      var current := steps[curStepIndex];
      if !current.isGeo {
        ok := I18nLine(i18n, lang, step.expectation) == m;
      } else {
        ok := geo(current.geoExp, m);
      }
      response := if ok then step.response else step.failMessage;
      response := I18nLine(i18n, lang, response);
    }

    /** RespondTo: a language command, or the current step's answer, advancing on a match. */
    method RespondTo(geo: GeoCheck, m: string) returns (r: string)
      requires Valid(View()) && (LanguageCommand(View(), m).Some? || steps != [])
      modifies this
      ensures (View(), r) == Answer(old(View()), geo, m)
    {
      var response, ok := ParseI18nCommand(m);
      if ok {
        return response;
      }
      ghost var v := View();
      r, ok := StepResponseOrFail(geo, m, curStepIndex);
      if ok {
        curStepIndex := (curStepIndex + 1) % |steps|;
        assert View() == v.(cur := RotateStep(v, v.cur + 1));
      }
    }

    /** RespondWithStepTo: the answer of another step, leaving the story as it is. */
    method RespondWithStepTo(geo: GeoCheck, stp: nat, m: string) returns (r: string)
      requires Valid(View()) && steps != []
      ensures r == AnswerWithStep(View(), geo, stp, m)
    {
      var ok;
      r, ok := StepResponseOrFail(geo, m, stp % |steps|);
    }
  }

  // Properties of the story

  /**
   * Language commands: "/en" answers "Language changed" and leaves the story
   * as it is; "/c" for another language of the table switches to c, answers
   * with c's confirmation line or "", and leaves the step where it is.
   */
  lemma LanguageCommands(sv: StoryValue, geo: GeoCheck, c: string)
    requires Valid(sv)
    ensures c == "en" ==> Answer(sv, geo, "/" + c) == (sv, LanguageChanged)
    ensures c != "en" && c in sv.i18n ==>
      var (sv', text) := Answer(sv, geo, "/" + c);
      && sv' == sv.(lang := c)
      && (LanguageChanged in sv.i18n[c] ==> text == sv.i18n[c][LanguageChanged])
      && (LanguageChanged !in sv.i18n[c] ==> text == "")
  {
    assert ("/" + c)[1..] == c;
  }

  /**
   * Anything but a language command is answered by the current step exactly
   * as RespondWithStepTo at the current index answers it, and the index
   * moves on by one, wrapping, exactly when the step is matched; the language
   * never changes. A match answers the step's response and a miss its fail
   * message, both translated into the story's language (kept as they are
   * while no language is set).
   */
  lemma AnswerAgreesWithStep(sv: StoryValue, geo: GeoCheck, m: string)
    requires Valid(sv) && sv.steps != [] && LanguageCommand(sv, m).None?
    ensures var (sv', text) := Answer(sv, geo, m);
      var st := sv.steps[sv.cur];
      && text == AnswerWithStep(sv, geo, sv.cur, m)
      && sv'.lang == sv.lang
      && (IsExpectationCorrect(sv, geo, m, st) ==> sv'.cur == (sv.cur + 1) % |sv.steps|)
      && (IsExpectationCorrect(sv, geo, m, st) ==> text == I18nLine(sv.i18n, sv.lang, st.response))
      && (!IsExpectationCorrect(sv, geo, m, st) ==> sv' == sv)
      && (!IsExpectationCorrect(sv, geo, m, st) ==> text == I18nLine(sv.i18n, sv.lang, st.failMessage))
      && (sv.lang == "" && !st.isGeo ==> (IsExpectationCorrect(sv, geo, m, st) <==> m == st.expectation))
  {
  }

  /**
   * stepResponseOrFail at any step stp: the step is matched by its translated
   * expectation typed exactly, unless the CURRENT step is a geo step, in which
   * case the geo check against the current step's expectation decides; a
   * match answers stp's translated response, a miss its translated fail
   * message.
   */
  lemma StepAnswers(sv: StoryValue, geo: GeoCheck, m: string, stp: nat)
    requires stp < |sv.steps| && sv.cur < |sv.steps|
    ensures var (text, ok) := StepAnswer(sv, geo, m, stp);
      var st, current := sv.steps[stp], sv.steps[sv.cur];
      && (!current.isGeo ==> (ok <==> (if sv.lang == "" then st.expectation else I18n.Line(sv.i18n, st.expectation, sv.lang)) == m))
      && (current.isGeo ==> (ok <==> geo(current.geoExp, m)))
      && (ok ==> text == (if sv.lang == "" then st.response else I18n.Line(sv.i18n, st.response, sv.lang)))
      && (!ok ==> text == (if sv.lang == "" then st.failMessage else I18n.Line(sv.i18n, st.failMessage, sv.lang)))
  {
  }

  /** Positions that differ by the number of steps answer alike. */
  lemma AnswerWithStepPeriodic(sv: StoryValue, geo: GeoCheck, stp: nat, m: string)
    requires Valid(sv) && sv.steps != []
    ensures AnswerWithStep(sv, geo, stp + |sv.steps|, m) == AnswerWithStep(sv, geo, stp, m)
  {
    Modulo.ModShift(stp, |sv.steps|);
  }

  /** Whether the current step matches an input that is not a language command. */
  predicate Matches(sv: StoryValue, geo: GeoCheck, m: string)
    requires Valid(sv) && sv.steps != []
  {
    LanguageCommand(sv, m).None? && IsExpectationCorrect(sv, geo, m, sv.steps[sv.cur])
  }

  /** The story after answering a sequence of inputs, one after the other. */
  function Run(sv: StoryValue, geo: GeoCheck, ms: seq<string>): (r: StoryValue)
    requires Valid(sv) && sv.steps != []
    ensures Valid(r) && r.steps == sv.steps && r.i18n == sv.i18n
  {
    if ms == [] then sv else Answer(Run(sv, geo, ms[..|ms| - 1]), geo, ms[|ms| - 1]).0
  }

  /** Every input of the sequence, in its turn, matches the step then current. */
  predicate AllMatch(sv: StoryValue, geo: GeoCheck, ms: seq<string>)
    requires Valid(sv) && sv.steps != []
  {
    ms == [] || (AllMatch(sv, geo, ms[..|ms| - 1]) && Matches(Run(sv, geo, ms[..|ms| - 1]), geo, ms[|ms| - 1]))
  }

  /**
   * Each matched input moves the current index on by one, wrapping at the
   * number of steps: after k matches it is k further on.
   */
  lemma {:induction false} MatchingRunRotates(sv: StoryValue, geo: GeoCheck, ms: seq<string>)
    requires Valid(sv) && sv.steps != [] && AllMatch(sv, geo, ms)
    ensures Run(sv, geo, ms).cur == (sv.cur + |ms|) % |sv.steps|
    ensures Run(sv, geo, ms).lang == sv.lang
  {
    if ms != [] {
      var init, m := ms[..|ms| - 1], ms[|ms| - 1];
      MatchingRunRotates(sv, geo, init);
      var r := Run(sv, geo, init);
      AnswerAgreesWithStep(r, geo, m);
      Modulo.ModSucc(sv.cur + |init|, |sv.steps|);
    }
  }

  /** The story loops: matching every step once brings it back to the step it started from. */
  lemma FullRoundReturns(sv: StoryValue, geo: GeoCheck, ms: seq<string>)
    requires Valid(sv) && sv.steps != [] && |ms| == |sv.steps| && AllMatch(sv, geo, ms)
    ensures Run(sv, geo, ms).cur == sv.cur
  {
    MatchingRunRotates(sv, geo, ms);
    Modulo.ModUnique(sv.cur + |ms|, |sv.steps|, 1, sv.cur);
  }

  /**
   * The geo flag comes from the current step: with a geo step current, a
   * text step asked through RespondWithStepTo is judged by the geo check,
   * and its own expectation typed exactly still fails.
   */
  lemma GeoFlagFromCurrentStep()
    ensures var sv := StoryValue(
        [Blank.(isGeo := true, response := "here"), Blank.(expectation := "x", response := "yes", failMessage := "no")],
        0, map[], "");
      AnswerWithStep(sv, (g: Steps.Geo, m: string) => false, 1, "x") == "no"
  {
  }
}
