/**
 * The oldest generation (package mesproc: story.go and tg.go): a story whose
 * current step counts up and wraps when it runs past the last step, and a
 * Telegram handler that answers the last chat it heard from with one message
 * or audio payload. Objects updated by setters are classes; `Value()` and
 * `View()` give their contents as plain values.
 */
module Mesproc {
  import opened Wrappers
  import opened GoStrings
  import I18n
  import Modulo
  import Telegram

  /** The answer to "/en", and the key of each language's own confirmation line. */
  const LanguageChanged: string := "Language changed to English"

  /** The contents of a step: an exact expectation, a response and a fail message. */
  datatype StepValue = StepValue(expectation: string, response: string, failMessage: string)

  const Blank: StepValue := StepValue("", "", "")

  class Step {
    var expectation: string
    var response: string
    var failMessage: string

    function Value(): StepValue
      reads this
    {
      StepValue(expectation, response, failMessage)
    }

    /** NewStep */
    constructor ()
      ensures Value() == Blank
    {
      expectation, response, failMessage := "", "", "";
    }

    method Expect(e: string) returns (s: Step)
      modifies this
      ensures s == this
      ensures Value() == old(Value()).(expectation := e)
    {
      expectation := e;
      s := this;
    }

    method Respond(r: string) returns (s: Step)
      modifies this
      ensures s == this
      ensures Value() == old(Value()).(response := r)
    {
      response := r;
      s := this;
    }

    method Fail(e: string) returns (s: Step)
      modifies this
      ensures s == this
      ensures Value() == old(Value()).(failMessage := e)
    {
      failMessage := e;
      s := this;
    }
  }

  /** The contents of a story: its steps, the current step counter and the translations. */
  datatype StoryValue = StoryValue(steps: seq<StepValue>, curStep: nat, i18n: I18n.I18nMap)

  const EmptyStory: StoryValue := StoryValue([], 0, map[])

  /** The counter may run one past the last step, and no further. */
  predicate Valid(sv: StoryValue)
  {
    sv.curStep <= |sv.steps|
  }

  /**
   * parseI18nCommand: "/en" answers in English; "/c" for a language c of the
   * table answers with c's confirmation line (Go's "" when it has none);
   * anything else is not a language command. The story does not keep a
   * language.
   */
  function LanguageCommand(i18n: I18n.I18nMap, m: string): Option<string>
  {
    if !HasPrefix(m, "/") then None
    else
      var c := m[1..];
      if c == "en" then Some(LanguageChanged)
      else if c in i18n then Some(if LanguageChanged in i18n[c] then i18n[c][LanguageChanged] else "")
      else None
  }

  /**
   * The step a non-command input is matched against: checkCurrentStep wraps
   * a counter that has run past the last step back to the first.
   */
  function Position(sv: StoryValue): (p: nat)
    requires Valid(sv)
    ensures sv.steps != [] ==> p < |sv.steps|
    ensures sv.curStep < |sv.steps| ==> p == sv.curStep
  {
    if sv.curStep == |sv.steps| then 0 else sv.curStep
  }

  /**
   * RespondTo as a value: the story afterwards and the answer. Go indexes the
   * current step for anything but a language command, so the story then
   * needs a step.
   */
  function Answer(sv: StoryValue, m: string): (r: (StoryValue, string))
    requires Valid(sv) && (LanguageCommand(sv.i18n, m).Some? || sv.steps != [])
    ensures Valid(r.0) && r.0.steps == sv.steps && r.0.i18n == sv.i18n
  {
    match LanguageCommand(sv.i18n, m)
    case Some(text) => (sv, text)
    case None =>
      var p := Position(sv);
      var st := sv.steps[p];
      if st.expectation == m then (sv.(curStep := p + 1), st.response) else (sv.(curStep := p), st.failMessage)
  }

  class Story {
    var steps: seq<Step>
    var curStep: nat
    var i18n: I18n.I18nMap

    /** The story's contents as a value, read through every step it refers to. */
    function View(): StoryValue
      reads this, steps
    {
      StoryValue(seq(|steps|, i requires 0 <= i < |steps| reads this, steps => steps[i].Value()), curStep, i18n)
    }

    /** NewStory */
    constructor ()
      ensures View() == EmptyStory
    {
      steps, curStep, i18n := [], 0, map[];
    }

    /** Add appends a step. */
    method Add(step: Step) returns (s: Story)
      modifies this
      ensures s == this
      ensures View() == old(View()).(steps := old(View().steps) + [step.Value()])
    {
      steps := steps + [step];
      s := this;
    }

    /** Step: the step the counter points at; Go indexes the slice, so it must be in range. */
    function CurrentStep(): (st: Step)
      reads this, steps
      requires curStep < |steps|
      ensures st in steps && st.Value() == View().steps[View().curStep]
    {
      steps[curStep]
    }

    method I18n(m: I18n.I18nMap) returns (s: Story)
      modifies this
      ensures s == this
      ensures View() == old(View()).(i18n := m)
    {
      i18n := m;
      s := this;
    }

    /** checkCurrentStep */
    method CheckCurrentStep()
      requires Valid(View())
      modifies this
      ensures View() == old(View()).(curStep := Position(old(View())))
    {
      if curStep == |steps| {
        curStep := 0;
      }
    }

    /** stepResponseOrFail: the response on an exact match, which moves the counter on; the fail message otherwise. */
    method StepResponseOrFail(m: string) returns (r: string)
      requires curStep < |steps|
      modifies this
      ensures var st := old(View()).steps[old(curStep)];
        && r == (if st.expectation == m then st.response else st.failMessage)
        && View() == old(View()).(curStep := if st.expectation == m then old(curStep) + 1 else old(curStep))
    {
      var step := steps[curStep];
      if step.expectation == m {
        curStep := curStep + 1;
        return step.response;
      }
      return step.failMessage;
    }

    /** parseI18nCommand */
    method ParseI18nCommand(m: string) returns (response: string, ok: bool)
      ensures ok == LanguageCommand(i18n, m).Some?
      ensures ok ==> response == LanguageCommand(i18n, m).value
    {
      if !HasPrefix(m, "/") {
        return "", false;
      }
      var c := m[1..];
      if c == "en" {
        return LanguageChanged, true;
      }
      if c in i18n {
        var lines := i18n[c];
        return if LanguageChanged in lines then lines[LanguageChanged] else "", true;
      }
      return "", false;
    }

    /** RespondTo: a language command, or the current step's answer after the counter wraps. */
    method RespondTo(m: string) returns (r: string)
      requires Valid(View()) && (LanguageCommand(i18n, m).Some? || steps != [])
      modifies this
      ensures (View(), r) == Answer(old(View()), m)
    {
      var response, ok := ParseI18nCommand(m);
      if ok {
        return response;
      }
      CheckCurrentStep();
      r := StepResponseOrFail(m);
    }
  }

  // Properties of the story

  /**
   * Language commands never move the story: "/en" answers "Language changed
   * to English"; "/c" for another language of the table answers with c's
   * confirmation line, or "" when it has none.
   */
  lemma LanguageCommands(sv: StoryValue, c: string)
    requires Valid(sv)
    ensures c == "en" ==> Answer(sv, "/" + c) == (sv, LanguageChanged)
    ensures c != "en" && c in sv.i18n ==>
      var (sv', text) := Answer(sv, "/" + c);
      && sv' == sv
      && (LanguageChanged in sv.i18n[c] ==> text == sv.i18n[c][LanguageChanged])
      && (LanguageChanged !in sv.i18n[c] ==> text == "")
  {
    assert ("/" + c)[1..] == c;
  }

  /**
   * Anything but a language command is matched exactly against the step at
   * the wrapped position: a match answers its response and moves the
   * position on by one, wrapping after the last step; a miss answers its fail
   * message and keeps the position.
   */
  lemma AnswerMovesPosition(sv: StoryValue, m: string)
    requires Valid(sv) && sv.steps != [] && LanguageCommand(sv.i18n, m).None?
    ensures var (sv', text) := Answer(sv, m);
      var st := sv.steps[Position(sv)];
      && (st.expectation == m ==> text == st.response && Position(sv') == (Position(sv) + 1) % |sv.steps|)
      && (st.expectation != m ==> text == st.failMessage && Position(sv') == Position(sv) && sv'.curStep == Position(sv))
  {
    var p, n := Position(sv), |sv.steps|;
    if p + 1 < n {
      Modulo.ModUnique(p + 1, n, 0, p + 1);
    } else {
      Modulo.ModUnique(p + 1, n, 1, 0);
    }
  }

  /** Whether the step at the current position matches an input that is not a language command. */
  predicate Matches(sv: StoryValue, m: string)
    requires Valid(sv) && sv.steps != []
  {
    LanguageCommand(sv.i18n, m).None? && sv.steps[Position(sv)].expectation == m
  }

  /** The story after answering a sequence of inputs, one after the other. */
  function Run(sv: StoryValue, ms: seq<string>): (r: StoryValue)
    requires Valid(sv) && sv.steps != []
    ensures Valid(r) && r.steps == sv.steps && r.i18n == sv.i18n
  {
    if ms == [] then sv else Answer(Run(sv, ms[..|ms| - 1]), ms[|ms| - 1]).0
  }

  /** Every input of the sequence, in its turn, matches the step then current. */
  predicate AllMatch(sv: StoryValue, ms: seq<string>)
    requires Valid(sv) && sv.steps != []
  {
    ms == [] || (AllMatch(sv, ms[..|ms| - 1]) && Matches(Run(sv, ms[..|ms| - 1]), ms[|ms| - 1]))
  }

  /**
   * The story loops: after k matched inputs the position is k further on,
   * modulo the number of steps.
   */
  lemma {:induction false} MatchingRunRotates(sv: StoryValue, ms: seq<string>)
    requires Valid(sv) && sv.steps != [] && AllMatch(sv, ms)
    ensures Position(Run(sv, ms)) == (Position(sv) + |ms|) % |sv.steps|
  {
    if ms == [] {
      Modulo.ModUnique(Position(sv), |sv.steps|, 0, Position(sv));
    } else {
      var init, m := ms[..|ms| - 1], ms[|ms| - 1];
      MatchingRunRotates(sv, init);
      AnswerMovesPosition(Run(sv, init), m);
      Modulo.ModSucc(Position(sv) + |init|, |sv.steps|);
    }
  }

  /**
   * The two-step story of the package's own example: a wrong input gets the
   * first fail message, "sector 1" its response; "sector 1" then gets the
   * second step's fail message and "lulz" its response.
   */
  lemma TwoStepConversation()
    ensures var sv := StoryValue(
        [StepValue("sector 1", "The story of this sector", "Please type `sector 1`"),
         StepValue("lulz", "Chilling lulz", "I want to hear `lulz`")],
        0, map[]);
      var a1 := Answer(sv, "smth else");
      var a2 := Answer(a1.0, "sector 1");
      var a3 := Answer(a2.0, "sector 1");
      var a4 := Answer(a3.0, "lulz");
      && a1.1 == "Please type `sector 1`" && a2.1 == "The story of this sector"
      && a3.1 == "I want to hear `lulz`" && a4.1 == "Chilling lulz"
      && a4.0.curStep == 2
  {
  }

  // The Telegram side (tg.go)

  /** The prefix that makes a text an audio payload. */
  const PrefixAudio: string := "audio:"

  /** TgSendMessage */
  class TgSendMessage {
    var chatId: int
    var text: string

    constructor ()
      ensures chatId == 0 && text == ""
    {
      chatId, text := 0, "";
    }

    method SetChatID(i: int)
      modifies this
      ensures chatId == i && text == old(text)
    {
      chatId := i;
    }

    method SetContent(a: string)
      modifies this
      ensures text == a && chatId == old(chatId)
    {
      text := a;
    }

    function URL(): (u: string)
      ensures u == "/sendMessage"
    {
      "/sendMessage"
    }
  }

  /** TgSendAudio */
  class TgSendAudio {
    var chatId: int
    var audio: string

    constructor ()
      ensures chatId == 0 && audio == ""
    {
      chatId, audio := 0, "";
    }

    method SetChatID(i: int)
      modifies this
      ensures chatId == i && audio == old(audio)
    {
      chatId := i;
    }

    method SetContent(a: string)
      modifies this
      ensures audio == a && chatId == old(chatId)
    {
      audio := a;
    }

    function URL(): (u: string)
      ensures u == "/sendAudio"
    {
      "/sendAudio"
    }
  }

  /** The TgSender interface: one of the two payload objects. */
  datatype TgSender = Message(m: TgSendMessage) | Audio(a: TgSendAudio)
  {
    function Target(): object
    {
      if Message? then m else a
    }

    function URL(): string
    {
      if Message? then m.URL() else a.URL()
    }

    /** The payload as a value. */
    function Value(): Payload
      reads Target()
    {
      if Message? then Payload(false, m.chatId, m.text) else Payload(true, a.chatId, a.audio)
    }

    method SetChatID(i: int)
      modifies Target()
      ensures Value() == old(Value()).(chatId := i)
    {
      if Message? {
        m.SetChatID(i);
      } else {
        a.SetChatID(i);
      }
    }

    method SetContent(c: string)
      modifies Target()
      ensures Value() == old(Value()).(content := c)
    {
      if Message? {
        m.SetContent(c);
      } else {
        a.SetContent(c);
      }
    }
  }

  /** A payload as a value: its kind, its chat and its text or audio reference. */
  datatype Payload = Payload(audio: bool, chatId: int, content: string)

  /** The endpoint a payload is posted to. */
  function Endpoint(p: Payload): string
  {
    if p.audio then "/sendAudio" else "/sendMessage"
  }

  /**
   * figureSenderType as a value: text with the audio prefix becomes an audio
   * payload of the rest, any other text a message of the whole text; the
   * chat is not set yet.
   */
  function SenderFor(text: string): (p: Payload)
    ensures p.chatId == 0
    ensures p.audio <==> HasPrefix(text, PrefixAudio)
    ensures p.audio ==> PrefixAudio + p.content == text
    ensures !p.audio ==> p.content == text
  {
    if HasPrefix(text, PrefixAudio) then Payload(true, 0, text[6..]) else Payload(false, 0, text)
  }

  /** figureSenderType: a fresh payload object of the right kind, its content set. */
  method FigureSenderType(text: string) returns (v: TgSender)
    ensures fresh(v.Target())
    ensures v.Value() == SenderFor(text) && v.URL() == Endpoint(v.Value())
  {
    var t := text;
    var msg := new TgSendMessage();
    v := Message(msg);
    if HasPrefix(t, "audio:") {
      var au := new TgSendAudio();
      v := Audio(au);
      t := t[6..];
    }
    v.SetContent(t);
  }

  /** What reaches the Telegram API: the URL posted to and the payload it carries. */
  datatype Post = Post(url: string, payload: Payload)

  /** A decoded update: the chat it comes from and its text. */
  datatype TgUpdate = TgUpdate(chatId: int, text: string)

  /**
   * TgHandler: the API base URL, the story, the chat of the last update
   * received, and the posts made so far (the HTTP calls, as a log).
   */
  class TgHandler {
    const target: string
    const str: Story
    var lastChatId: int
    var posts: seq<Post>

    /** NewTgHandler */
    constructor (target: string, str: Story)
      ensures this.target == target && this.str == str && lastChatId == 0 && posts == []
    {
      this.target, this.str := target, str;
      lastChatId, posts := 0, [];
    }

    /** Receive: remembers the update's chat and hands its text on. */
    method Receive(u: TgUpdate) returns (text: string)
      modifies this
      ensures text == u.text && lastChatId == u.chatId && posts == old(posts)
    {
      lastChatId := u.chatId;
      return u.text;
    }

    /**
     * Send: the story's answer, classified, addressed to the last chat and
     * posted to the matching endpoint.
     */
    method Send(message: string)
      requires Valid(str.View()) && (LanguageCommand(str.i18n, message).Some? || str.steps != [])
      modifies this, str
      ensures str.View() == Answer(old(str.View()), message).0
      ensures lastChatId == old(lastChatId)
      ensures var p := SenderFor(Answer(old(str.View()), message).1).(chatId := lastChatId);
        posts == old(posts) + [Post(target + Endpoint(p), p)]
    {
      var answer := str.RespondTo(message);
      var v := FigureSenderType(answer);
      v.SetChatID(lastChatId);
      posts := posts + [Post(target + v.URL(), v.Value())];
    }
  }

  /** Audio payloads go to /sendAudio with the prefix stripped, everything else to /sendMessage verbatim. */
  lemma AudioEndpoint()
    ensures SenderFor("audio:track.mp3") == Payload(true, 0, "track.mp3") && Endpoint(SenderFor("audio:track.mp3")) == "/sendAudio"
    ensures SenderFor("Choose sector") == Payload(false, 0, "Choose sector") && Endpoint(SenderFor("Choose sector")) == "/sendMessage"
  {
    assert HasPrefix("audio:track.mp3", PrefixAudio);
    assert "Choose sector"[..6][0] != PrefixAudio[0];
  }

  /**
   * This classification is the current one without photos: on every text
   * that does not start with "photo:" both pick the same kind, content and
   * endpoint; a "photo:" text is here a plain message of the whole text.
   */
  lemma AgreesWithCurrentClassification(text: string)
    ensures var p, v := SenderFor(text), Telegram.FigureSenderType(text);
      && (!HasPrefix(text, Telegram.PrefixPhoto) ==>
            (p.audio <==> v.SendAudio?) && p.content == Telegram.Content(v) && Endpoint(p) == Telegram.URL(v))
      && (HasPrefix(text, Telegram.PrefixPhoto) ==> !p.audio && p.content == text)
  {
    if HasPrefix(text, Telegram.PrefixPhoto) {
      assert text[..6] == "photo:";
      assert !HasPrefix(text, PrefixAudio);
    }
  }
}
