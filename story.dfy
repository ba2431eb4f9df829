/**
 * The story engine (pkg/story/story.go): ordered steps that rotate, a table
 * of slash commands, a table of unordered steps, and a translation table.
 * `Resolve` is the resolution of (position, language, input) into a batch of
 * responses; the Story class is the builder and the loop that fills the batch.
 */
module Stories {
  import opened Wrappers
  import opened GoStrings
  import opened Steps
  import opened Responses
  import opened I18n
  import Modulo

  /**
   * What the engine asks of code outside the model: whether the save
   * collaborator accepts the text, and whether a "<lat>,<lon>" text lies
   * within the expected distance (haversine over floats).
   */
  datatype Oracles = Oracles(save: (Store, string) -> bool, geoMatches: (Geo, string) -> bool)

  /** The contents of a story at one moment. */
  datatype StoryValue = StoryValue(
    steps: seq<StepValue>,
    cmds: map<string, StepValue>,
    unordered: map<string, StepValue>,
    i18n: I18nMap)

  const EmptyStory: StoryValue := StoryValue([], map[], map[], map[])

  /** What parseUnordered found: the lines to answer with and the language it switches to ("" for none). */
  datatype SideAnswer = SideAnswer(lines: seq<string>, lang: string)

  /** The outcome of parseAndRespond: untranslated lines, the resolution language, the advance flag. */
  datatype Resolution = Resolution(lines: seq<string>, lang: string, advance: bool)

  /** The lookup key of an input: a leading slash is dropped. */
  function Key(m: string): (k: string)
    ensures HasPrefix(m, "/") ==> "/" + k == m
    ensures !HasPrefix(m, "/") ==> k == m
  {
    if HasPrefix(m, "/") then m[1..] else m
  }

  /** A key switches language when it is "en" or a language of the translation table. */
  predicate IsLanguage(i18n: I18nMap, c: string)
  {
    c == "en" || c in i18n
  }

  /** processI18nCommand */
  function ProcessI18nCommand(i18n: I18nMap, c: string): Option<SideAnswer>
  {
    if IsLanguage(i18n, c) then Some(SideAnswer([LanguageChanged], c)) else None
  }

  /**
   * parseUnordered: a slash input is looked up, without its slash, in the
   * command table, any other input in the unordered table; the language
   * switch is tried first, on slash and plain input alike.
   */
  function ParseUnordered(sv: StoryValue, m: string): Option<SideAnswer>
  {
    var lookUp := if HasPrefix(m, "/") then sv.cmds else sv.unordered;
    var k := Key(m);
    if IsLanguage(sv.i18n, k) then ProcessI18nCommand(sv.i18n, k)
    else if k in lookUp then Some(SideAnswer(lookUp[k].responses, ""))
    else None
  }

  /** rotateStep: the position taken modulo the number of ordered steps. */
  function RotateStep(sv: StoryValue, stp: nat): (r: nat)
    requires |sv.steps| > 0
    ensures r < |sv.steps|
    ensures stp < |sv.steps| ==> r == stp
  {
    stp % |sv.steps|
  }

  /**
   * isExpectationCorrect: a step with a store matches iff the store accepts
   * the text; otherwise a text step matches the translated expectation up to
   * case, and a geo step asks the geo oracle.
   */
  predicate IsExpectationCorrect(sv: StoryValue, env: Oracles, m: string, lang: string, st: StepValue)
  {
    if st.store.Some? then env.save(st.store.value, m)
    else if !st.isGeo then EqualFold(Line(sv.i18n, st.expectation, lang), m)
    else env.geoMatches(st.geoExp, m)
  }

  /** stepResponsesOrFail */
  function StepResponsesOrFail(sv: StoryValue, env: Oracles, m: string, lang: string, idx: nat): (seq<string>, bool)
    requires idx < |sv.steps|
  {
    var st := sv.steps[idx];
    if IsExpectationCorrect(sv, env, m, lang, st) then (st.responses, true) else ([st.failMessage], false)
  }

  /**
   * Resolution is defined when the input is answered by the language switch
   * or a table, or when there is an ordered step to rotate over (Go divides
   * by len(steps) otherwise).
   */
  predicate CanResolve(sv: StoryValue, m: string)
  {
    |sv.steps| > 0 || ParseUnordered(sv, m).Some?
  }

  /** The language a resolution starts from: the caller's, or "en" when it is empty. */
  function DefaultLang(lang: string): (l: string)
    ensures l != ""
  {
    if lang == "" then "en" else lang
  }

  /** parseAndRespond */
  function ParseAndRespond(sv: StoryValue, env: Oracles, stp: nat, lang: string, m: string): Resolution
    requires CanResolve(sv, m)
  {
    var l := DefaultLang(lang);
    match ParseUnordered(sv, m)
    case Some(side) => Resolution(side.lines, if side.lang != "" then side.lang else l, false)
    case None =>
      var (lines, ok) := StepResponsesOrFail(sv, env, m, l, RotateStep(sv, stp));
      Resolution(lines, l, ok)
  }

  /**
   * The metadata given to the i-th response: that of the ordered step at the
   * current position, whatever path produced the response.
   */
  function AdditionalFor(sv: StoryValue, stp: nat, i: int): Metadata
  {
    if |sv.steps| > 0 then MetadataAt(sv.steps[RotateStep(sv, stp)].additional, i) else map[]
  }

  /** The i-th response of a batch built from a resolution. */
  function ResponseAt(sv: StoryValue, stp: nat, res: Resolution, i: nat): Response
    requires i < |res.lines|
  {
    Response(res.lines[i], Line(sv.i18n, res.lines[i], res.lang), res.lang, res.advance, AdditionalFor(sv, stp, i))
  }

  /** ResponsesWithLangStepTo, as a value: one response per resolved line, in order. */
  function Resolve(sv: StoryValue, env: Oracles, stp: nat, lang: string, m: string): (rs: seq<Response>)
    requires CanResolve(sv, m)
  {
    var res := ParseAndRespond(sv, env, stp, lang, m);
    seq(|res.lines|, i requires 0 <= i < |res.lines| => ResponseAt(sv, stp, res, i))
  }

  class Story {
    var steps: seq<Step>
    var cmds: map<string, Step>
    var unordered: map<string, Step>
    var i18n: I18nMap

    /** The story's contents as a value, read through every step it refers to. */
    function View(): StoryValue
      reads this, steps, cmds.Values, unordered.Values
    {
      StoryValue(
        seq(|steps|, i requires 0 <= i < |steps| reads this, steps => steps[i].Value()),
        map k | k in cmds :: cmds[k].Value(),
        map k | k in unordered :: unordered[k].Value(),
        i18n)
    }

    /** New */
    constructor ()
      ensures View() == EmptyStory
    {
      steps, cmds, unordered, i18n := [], map[], map[], map[];
    }

    /** Add appends a step to the ordered flow. */
    method Add(step: Step) returns (s: Story)
      modifies this
      ensures s == this
      ensures steps == old(steps) + [step] && cmds == old(cmds) && unordered == old(unordered) && i18n == old(i18n)
      ensures View() == old(View()).(steps := old(View().steps) + [step.Value()])
    {
      steps := steps + [step];
      s := this;
    }

    /** AddCommand keys the step by its expectation at the time of the call. */
    method AddCommand(step: Step) returns (s: Story)
      modifies this
      ensures s == this
      ensures cmds == old(cmds)[step.expectation := step]
      ensures steps == old(steps) && unordered == old(unordered) && i18n == old(i18n)
      ensures View() == old(View()).(cmds := old(View().cmds)[step.expectation := step.Value()])
    {
      ghost var v := View();
      cmds := cmds[step.expectation := step];
      assert View().steps == v.steps;
      assert View().cmds == v.cmds[step.expectation := step.Value()];
      s := this;
    }

    /** AddUnordered keys the step by its expectation at the time of the call. */
    method AddUnordered(step: Step) returns (s: Story)
      modifies this
      ensures s == this
      ensures unordered == old(unordered)[step.expectation := step]
      ensures steps == old(steps) && cmds == old(cmds) && i18n == old(i18n)
      ensures View() == old(View()).(unordered := old(View().unordered)[step.expectation := step.Value()])
    {
      ghost var v := View();
      unordered := unordered[step.expectation := step];
      assert View().steps == v.steps;
      assert View().unordered == v.unordered[step.expectation := step.Value()];
      s := this;
    }

    /** I18n replaces the translation table. */
    method I18n(m: I18nMap) returns (s: Story)
      modifies this
      ensures s == this
      ensures steps == old(steps) && cmds == old(cmds) && unordered == old(unordered) && i18n == m
      ensures View() == old(View()).(i18n := m)
    {
      i18n := m;
      s := this;
    }

    /**
     * ResponsesWithLangStepTo: resolves the input, then fills the result one
     * response at a time.
     */
    method ResponsesWithLangStepTo(env: Oracles, stp: nat, lang: string, m: string) returns (result: seq<Response>)
      requires CanResolve(View(), m)
      ensures result == Resolve(View(), env, stp, lang, m)
    {
      var sv := View();
      var res := ParseAndRespond(sv, env, stp, lang, m);
      result := [];
      var i := 0;
      while i < |res.lines|
        invariant 0 <= i <= |res.lines|
        invariant |result| == i
        invariant forall k :: 0 <= k < i ==> result[k] == ResponseAt(sv, stp, res, k)
      {
        var additional: Metadata := map[];
        if |steps| > 0 {
          additional := MetadataAt(steps[stp % |steps|].additional, i);
        }
        result := result + [Response(res.lines[i], Line(i18n, res.lines[i], res.lang), res.lang, res.advance, additional)];
        i := i + 1;
      }
    }
  }

  // Properties of resolution

  /** Which check decides a step's match: the store first, then the text, then the geo oracle. */
  lemma ExpectationKinds(sv: StoryValue, env: Oracles, m: string, lang: string, st: StepValue)
    ensures st.store.Some? ==> (IsExpectationCorrect(sv, env, m, lang, st) <==> env.save(st.store.value, m))
    ensures st.store.None? && !st.isGeo ==>
      (IsExpectationCorrect(sv, env, m, lang, st) <==> EqualFold(Line(sv.i18n, st.expectation, lang), m))
    ensures st.store.None? && st.isGeo ==> (IsExpectationCorrect(sv, env, m, lang, st) <==> env.geoMatches(st.geoExp, m))
  {
  }

  /**
   * Every response of a batch is the translation of its original into the
   * batch's language, and all responses share one language and one advance flag.
   */
  lemma ResolvedBatchIsUniform(sv: StoryValue, env: Oracles, stp: nat, lang: string, m: string)
    requires CanResolve(sv, m)
    ensures var rs := Resolve(sv, env, stp, lang, m);
      forall i | 0 <= i < |rs| ::
        && rs[i].text == Line(sv.i18n, rs[i].original, rs[i].lang)
        && rs[i].lang == rs[0].lang
        && rs[i].shouldAdvance == rs[0].shouldAdvance
        && rs[i].additional == AdditionalFor(sv, stp, i)
  {
  }

  /**
   * "/X" and plain "X", for X "en" or a language of the table, answer one
   * "Language changed" line in language X without advancing.
   */
  lemma LanguageSwitchAnswers(sv: StoryValue, env: Oracles, stp: nat, lang: string, m: string)
    requires IsLanguage(sv.i18n, Key(m)) && Key(m) != ""
    ensures CanResolve(sv, m)
    ensures Resolve(sv, env, stp, lang, m)
      == [Response(LanguageChanged, Line(sv.i18n, LanguageChanged, Key(m)), Key(m), false, AdditionalFor(sv, stp, 0))]
  {
  }

  /** An empty language is read as "en": without a language switch, every response is in English. */
  lemma EmptyLanguageIsEnglish(sv: StoryValue, env: Oracles, stp: nat, m: string)
    requires CanResolve(sv, m) && !IsLanguage(sv.i18n, Key(m))
    ensures forall r | r in Resolve(sv, env, stp, "", m) :: r.lang == "en"
  {
  }

  /**
   * "/c" for a registered command c that is not a language answers the
   * command step's responses in order, in the caller's language, without advancing.
   */
  lemma CommandAnswers(sv: StoryValue, env: Oracles, stp: nat, lang: string, c: string)
    requires !IsLanguage(sv.i18n, c) && c in sv.cmds
    ensures CanResolve(sv, "/" + c)
    ensures var rs := Resolve(sv, env, stp, lang, "/" + c);
      && Originals(rs) == sv.cmds[c].responses
      && forall r | r in rs :: !r.shouldAdvance && r.lang == DefaultLang(lang)
  {
    assert Key("/" + c) == c;
  }

  /**
   * An input without a slash that equals an unordered key (and is not a
   * language) answers that step's responses and never advances.
   */
  lemma UnorderedAnswers(sv: StoryValue, env: Oracles, stp: nat, lang: string, m: string)
    requires !HasPrefix(m, "/") && !IsLanguage(sv.i18n, m) && m in sv.unordered
    ensures CanResolve(sv, m)
    ensures var rs := Resolve(sv, env, stp, lang, m);
      && Originals(rs) == sv.unordered[m].responses
      && forall r | r in rs :: !r.shouldAdvance && r.lang == DefaultLang(lang)
  {
  }

  /**
   * Any other input is decided by the ordered step at stp mod len(steps): on
   * a match all of its responses, advancing; on a miss its fail message alone,
   * not advancing.
   */
  lemma OrderedAnswers(sv: StoryValue, env: Oracles, stp: nat, lang: string, m: string)
    requires |sv.steps| > 0 && ParseUnordered(sv, m).None?
    ensures var st := sv.steps[stp % |sv.steps|];
      var rs := Resolve(sv, env, stp, lang, m);
      && (IsExpectationCorrect(sv, env, m, DefaultLang(lang), st) ==>
            Originals(rs) == st.responses && forall r | r in rs :: r.shouldAdvance)
      && (!IsExpectationCorrect(sv, env, m, DefaultLang(lang), st) ==>
            Originals(rs) == [st.failMessage] && forall r | r in rs :: !r.shouldAdvance)
      && forall r | r in rs :: r.lang == DefaultLang(lang)
  {
  }

  /** Positions that differ by len(steps) resolve identically. */
  lemma {:induction false} ResolvePeriodic(sv: StoryValue, env: Oracles, stp: nat, lang: string, m: string)
    requires CanResolve(sv, m)
    ensures Resolve(sv, env, stp + |sv.steps|, lang, m) == Resolve(sv, env, stp, lang, m)
  {
    if |sv.steps| > 0 {
      Modulo.ModShift(stp, |sv.steps|);
    }
  }

  /** Text expectations ignore case: "lOl ThIs GoOd" matches the expectation "LOL this GOOD". */
  lemma TextMatchIgnoresCase(env: Oracles)
    ensures var sv := StoryValue([Blank.(expectation := "LOL this GOOD", responses := ["success!"], failMessage := "failed")],
                                 map[], map[], map[]);
      Resolve(sv, env, 0, "", "lOl ThIs GoOd") == [Response("success!", "success!", "en", true, map[])]
  {
    var sv := StoryValue([Blank.(expectation := "LOL this GOOD", responses := ["success!"], failMessage := "failed")],
                         map[], map[], map[]);
    assert EqualFold("LOL this GOOD", "lOl ThIs GoOd");
  }
}
