/**
 * The Telegram session layer (pkg/tg/handler.go): one handler serves every
 * chat, keeps a session per chat id (position in the story, language, last
 * batch) and one handler-wide queue of delayed responses.
 *
 * The pure part (`Handle`, `Fired` and their helpers) says what one incoming
 * update and one timer expiry do to the handler's state; the `Handler` class
 * performs the same steps on its fields and is proved to agree with it.
 * Posting to the Bot API is an append to `sent`; time is a parameter `now`
 * (nanoseconds), and a delayed response is an armed timer with a deadline.
 */
module Telegram {
  import opened Wrappers
  import opened GoStrings
  import opened Steps
  import opened Responses
  import opened I18n
  import opened Stories

  /** A response text starting with this is sent as an audio file. */
  const PrefixAudio: string := "audio:"
  /** A response text starting with this is sent as a photo. */
  const PrefixPhoto: string := "photo:"

  /** A location shared by the user. */
  datatype Location = Location(longitude: real, latitude: real)

  /** The parts of a Bot API update the handler reads. */
  datatype Update = Update(chatId: int, text: string, location: Option<Location>, languageCode: string)

  /** The payloads posted to the Bot API. */
  datatype Sender =
    | SendMessage(chatId: int, text: string)
    | SendAudio(chatId: int, audio: string)
    | SendPhoto(chatId: int, photo: string)
    | SendChatAction(chatId: int, action: string)

  /** The Bot API endpoint of a payload. */
  function URL(v: Sender): string
  {
    match v
    case SendMessage(_, _) => "/sendMessage"
    case SendAudio(_, _) => "/sendAudio"
    case SendPhoto(_, _) => "/sendPhoto"
    case SendChatAction(_, _) => "/sendChatAction"
  }

  /** The content field of a payload (text, audio URL, photo URL or action). */
  function Content(v: Sender): string
  {
    match v
    case SendMessage(_, t) => t
    case SendAudio(_, a) => a
    case SendPhoto(_, p) => p
    case SendChatAction(_, a) => a
  }

  /**
   * figureSenderType: the payload kind is chosen by the prefix, "audio:"
   * before "photo:", and the prefix is stripped; the chat id is still unset.
   */
  function FigureSenderType(text: string): (v: Sender)
    ensures v.chatId == 0 && !v.SendChatAction?
    ensures v.SendAudio? <==> HasPrefix(text, PrefixAudio)
    ensures v.SendPhoto? <==> !HasPrefix(text, PrefixAudio) && HasPrefix(text, PrefixPhoto)
    ensures v.SendAudio? ==> PrefixAudio + Content(v) == text
    ensures v.SendPhoto? ==> PrefixPhoto + Content(v) == text
    ensures v.SendMessage? ==> Content(v) == text
  {
    if HasPrefix(text, PrefixAudio) then SendAudio(0, text[|PrefixAudio|..])
    else if HasPrefix(text, PrefixPhoto) then SendPhoto(0, text[|PrefixPhoto|..])
    else SendMessage(0, text)
  }

  /** before: the chat action announced ahead of a media payload. */
  function Before(v: Sender): seq<Sender>
  {
    if v.SendAudio? then [SendChatAction(v.chatId, "upload_document")]
    else if v.SendPhoto? then [SendChatAction(v.chatId, "upload_photo")]
    else []
  }

  /** SetChatID: the same payload, addressed to chat `id`. */
  function WithChatID(v: Sender, id: int): (w: Sender)
    ensures w.chatId == id && Content(w) == Content(v) && URL(w) == URL(v)
  {
    match v
    case SendMessage(_, t) => SendMessage(id, t)
    case SendAudio(_, a) => SendAudio(id, a)
    case SendPhoto(_, p) => SendPhoto(id, p)
    case SendChatAction(_, a) => SendChatAction(id, a)
  }

  /** sendResponse: what posting one response to a chat puts on the wire, in order. */
  function Delivery(r: Response, id: int): seq<Sender>
  {
    var v := WithChatID(FigureSenderType(r.text), id);
    Before(v) + [v]
  }

  /** The deliveries of a batch, one after the other. */
  function Deliveries(rs: seq<Response>, id: int): seq<Sender>
  {
    if rs == [] then [] else Deliveries(rs[..|rs| - 1], id) + Delivery(rs[|rs| - 1], id)
  }

  /** convertText: a shared location, rendered by `formatLocation`, replaces the text. */
  function ConvertText(u: Update, formatLocation: Location -> string): string
  {
    if u.location.Some? then formatLocation(u.location.value) else u.text
  }

  /** A chat session: position in the story, language, and the last batch (None is Go's nil slice). */
  datatype UsrCfg = UsrCfg(step: nat, lang: string, lastRs: Option<seq<Response>>)

  const NewUsrCfg: UsrCfg := UsrCfg(0, "", None)

  /** A delayed response: what its timer's callback sends, and to which chat. */
  datatype Timer = Timer(response: Response, chatId: int)

  /**
   * The handler's state. `timers` is the handler-wide queue of timer ids;
   * `created` lists every timer made so far (a timer's id is its index);
   * `armed` maps each timer that is going to fire to its deadline; `sent` is
   * everything posted to the Bot API, in order.
   */
  datatype HState = HState(
    usrCfgs: map<int, UsrCfg>,
    timers: seq<nat>,
    created: seq<Timer>,
    armed: map<nat, int>,
    sent: seq<Sender>)

  const Idle: HState := HState(map[], [], [], map[], [])

  /** How the handling of one update ended. */
  datatype Outcome =
    | Answered   // a batch was resolved and sent or queued
    | Flushed    // a pending delayed response was re-armed to fire now; nothing else happened
    | Panicked   // Go panics (division by zero on an empty story, indexing an empty batch)

  /** prepareUserConfig: the session of the update's chat, created, seeded and reset as needed. */
  function Prepared(usrCfgs: map<int, UsrCfg>, u: Update): UsrCfg
  {
    var c := if u.chatId in usrCfgs then usrCfgs[u.chatId] else NewUsrCfg;
    var seeded := if c.lang == "" then c.(lang := u.languageCode) else c;
    if u.text == "/start" then seeded.(step := 0) else seeded
  }

  /**
   * translateLastResponses: after a change of language the previous batch,
   * re-translated, replaces the new one. Go indexes rs[0] here, so an empty
   * batch with a previous batch present panics; the caller checks that.
   */
  function TranslateLast(i18n: I18nMap, cfg: UsrCfg, rs: seq<Response>): (seq<Response>, bool)
    requires cfg.lastRs.None? || rs != []
  {
    if cfg.lastRs.Some? && rs[0].lang != cfg.lang then (Translated(i18n, cfg.lastRs.value, rs[0].lang), true)
    else (rs, false)
  }

  /** updateUsrCfg */
  function UpdatedCfg(cfg: UsrCfg, r: Response, translated: bool): UsrCfg
  {
    cfg.(step := if r.shouldAdvance && !translated then cfg.step + 1 else cfg.step, lang := r.lang)
  }

  /** Whether a response is delayed: it carries "time" metadata. */
  predicate IsTimed(r: Response)
  {
    "time" in r.additional
  }

  /** addTimedResponse: a new timer, appended to the queue and armed for now + t. */
  function AddTimed(st: HState, r: Response, t: Duration, id: int, now: int): HState
  {
    var tid := |st.created|;
    st.(timers := st.timers + [tid], created := st.created + [Timer(r, id)], armed := st.armed[tid := now + t.nanos])
  }

  /** One turn of the send loop. */
  function DispatchOne(st: HState, r: Response, id: int, now: int): HState
  {
    if IsTimed(r) then AddTimed(st, r, r.additional["time"], id, now)
    else st.(sent := st.sent + Delivery(r, id))
  }

  /** The send loop over a batch, in batch order. */
  function Dispatch(st: HState, rs: seq<Response>, id: int, now: int): HState
  {
    if rs == [] then st else DispatchOne(Dispatch(st, rs[..|rs| - 1], id, now), rs[|rs| - 1], id, now)
  }

  /**
   * The part of send after resolution, for chat `id` with session `cfg` and
   * resolved batch `rs`: re-translation, the send loop, then the session
   * update. Go indexes the batch's first response twice; an empty batch
   * panics there.
   */
  function Reply(i18n: I18nMap, st: HState, id: int, cfg: UsrCfg, rs: seq<Response>, now: int): (HState, Outcome)
  {
    if cfg.lastRs.Some? && rs == [] then (st, Panicked)
    else
      var (batch, translated) := TranslateLast(i18n, cfg, rs);
      var st2 := Dispatch(st, batch, id, now);
      var cfg2 := cfg.(lastRs := Some(batch));
      if batch == [] then (st2.(usrCfgs := st2.usrCfgs[id := cfg2]), Panicked)
      else (st2.(usrCfgs := st2.usrCfgs[id := UpdatedCfg(cfg2, batch[0], translated)]), Answered)
  }

  /** The part of send after the pending check: resolve the converted text, then reply. */
  function Respond(sv: StoryValue, env: Oracles, formatLocation: Location -> string, st: HState, u: Update, cfg: UsrCfg, now: int): (HState, Outcome)
  {
    var m := ConvertText(u, formatLocation);
    if !CanResolve(sv, m) then (st, Panicked)
    else Reply(sv.i18n, st, u.chatId, cfg, Resolve(sv, env, cfg.step, cfg.lang, m), now)
  }

  /**
   * send: what handling one update does, given the story, its oracles, the
   * location renderer and the current time. Effects made before a Go panic
   * are kept, as the HTTP server survives a panicking handler.
   */
  function Handle(sv: StoryValue, env: Oracles, formatLocation: Location -> string, st: HState, u: Update, now: int): (HState, Outcome)
  {
    var cfg := Prepared(st.usrCfgs, u);
    var st1 := st.(usrCfgs := st.usrCfgs[u.chatId := cfg]);
    if st1.timers != [] then (st1.(armed := st1.armed[st1.timers[0] := now]), Flushed)
    else Respond(sv, env, formatLocation, st1, u, cfg, now)
  }

  /** The Go runtime runs the callback of an armed timer whose deadline comes first. */
  predicate Due(st: HState, tid: nat)
  {
    tid in st.armed && forall t :: t in st.armed ==> st.armed[tid] <= st.armed[t]
  }

  /** The queue with every occurrence of x removed. */
  function Without(q: seq<nat>, x: nat): (r: seq<nat>)
    ensures forall y :: y in r <==> y in q && y != x
    ensures x !in q ==> r == q
  {
    if q == [] then [] else (if q[0] == x then [] else [q[0]]) + Without(q[1..], x)
  }

  /**
   * Timer tid fires, as written: it sends its response and drops the HEAD of
   * the queue, whichever timer that is.
   */
  function FiredAsWritten(st: HState, tid: nat): HState
    requires tid in st.armed && tid < |st.created|
  {
    var t := st.created[tid];
    st.(sent := st.sent + Delivery(t.response, t.chatId),
        armed := st.armed - {tid},
        timers := if |st.timers| > 0 then st.timers[1..] else st.timers)
  }

  /** Timer tid fires, corrected: it sends its response and leaves the queue itself. */
  function Fired(st: HState, tid: nat): HState
    requires tid in st.armed && tid < |st.created|
  {
    var t := st.created[tid];
    st.(sent := st.sent + Delivery(t.response, t.chatId),
        armed := st.armed - {tid},
        timers := Without(st.timers, tid))
  }

  predicate NoDup(q: seq<nat>)
  {
    forall i, j :: 0 <= i < j < |q| ==> q[i] != q[j]
  }

  /**
   * The queue lists each timer that is still going to fire exactly once, and
   * nothing else: so a message that finds the queue non-empty flushes a
   * response that has not been sent yet.
   */
  predicate QueueTracksArmed(st: HState)
  {
    && NoDup(st.timers)
    && (forall t :: t in st.timers ==> t in st.armed)
    && (forall t :: t in st.armed ==> t in st.timers)
    && (forall t :: t in st.armed ==> t < |st.created|)
  }

  /** The responses of a batch that carry a delay, in batch order. */
  function TimedOnes(rs: seq<Response>): (ts: seq<Response>)
    ensures forall i :: 0 <= i < |ts| ==> IsTimed(ts[i])
  {
    if rs == [] then [] else TimedOnes(rs[..|rs| - 1]) + (if IsTimed(rs[|rs| - 1]) then [rs[|rs| - 1]] else [])
  }

  /** The responses of a batch that carry no delay, in batch order. */
  function Immediate(rs: seq<Response>): seq<Response>
  {
    if rs == [] then [] else Immediate(rs[..|rs| - 1]) + (if IsTimed(rs[|rs| - 1]) then [] else [rs[|rs| - 1]])
  }

  /** The timers made for delayed responses to chat `id`, one per response. */
  function TimersFor(rs: seq<Response>, id: int): (ts: seq<Timer>)
    ensures |ts| == |rs|
  {
    if rs == [] then [] else TimersFor(rs[..|rs| - 1], id) + [Timer(rs[|rs| - 1], id)]
  }

  /** The k consecutive timer ids starting at `first`. */
  function Ids(first: nat, k: nat): seq<nat>
  {
    if k == 0 then [] else Ids(first, k - 1) + [first + k - 1]
  }

  class Handler {
    const str: Story
    const env: Oracles
    const formatLocation: Location -> string
    var usrCfgs: map<int, UsrCfg>
    var timers: seq<nat>
    var created: seq<Timer>
    var armed: map<nat, int>
    var sent: seq<Sender>

    function State(): HState
      reads this
    {
      HState(usrCfgs, timers, created, armed, sent)
    }

    /** New: no sessions, no timers, nothing sent. */
    constructor (str: Story, env: Oracles, formatLocation: Location -> string)
      ensures this.str == str && this.env == env && this.formatLocation == formatLocation
      ensures State() == Idle
    {
      this.str := str;
      this.env := env;
      this.formatLocation := formatLocation;
      usrCfgs := map[];
      timers := [];
      created := [];
      armed := map[];
      sent := [];
    }

    method PrepareUserConfig(u: Update) returns (cfg: UsrCfg)
      modifies this
      ensures cfg == Prepared(old(usrCfgs), u)
      ensures State() == old(State()).(usrCfgs := old(usrCfgs)[u.chatId := cfg])
    {
      var id := u.chatId;
      if id !in usrCfgs {
        usrCfgs := usrCfgs[id := NewUsrCfg];
      }
      cfg := usrCfgs[id];
      if cfg.lang == "" {
        cfg := cfg.(lang := u.languageCode);
      }
      if u.text == "/start" {
        cfg := cfg.(step := 0);
      }
      usrCfgs := usrCfgs[id := cfg];
    }

    /** runTimedResponses: re-arms the head of the queue to fire now, if there is one. */
    method RunTimedResponses(now: int) returns (pending: bool)
      modifies this
      ensures pending <==> old(timers) != []
      ensures pending ==> State() == old(State()).(armed := old(armed)[old(timers)[0] := now])
      ensures !pending ==> State() == old(State())
    {
      if |timers| > 0 {
        armed := armed[timers[0] := now];
        return true;
      }
      return false;
    }

    method AddTimedResponse(r: Response, t: Duration, id: int, now: int)
      modifies this
      ensures State() == AddTimed(old(State()), r, t, id, now)
    {
      var tid := |created|;
      created := created + [Timer(r, id)];
      armed := armed[tid := now + t.nanos];
      timers := timers + [tid];
    }

    method SendResponse(r: Response, id: int)
      modifies this
      ensures State() == old(State()).(sent := old(sent) + Delivery(r, id))
    {
      var v := FigureSenderType(r.text);
      v := WithChatID(v, id);
      sent := sent + Before(v);
      sent := sent + [v];
    }

    method TranslateLastResponses(cfg: UsrCfg, rs: seq<Response>) returns (batch: seq<Response>, translated: bool)
      requires cfg.lastRs.None? || rs != []
      ensures (batch, translated) == TranslateLast(str.i18n, cfg, rs)
    {
      if cfg.lastRs.Some? && rs[0].lang != cfg.lang {
        batch := Translate(str.i18n, cfg.lastRs.value, rs[0].lang);
        return batch, true;
      }
      return rs, false;
    }

    method UpdateUsrCfg(id: int, cfg: UsrCfg, r: Response, translated: bool)
      modifies this
      ensures State() == old(State()).(usrCfgs := old(usrCfgs)[id := UpdatedCfg(cfg, r, translated)])
    {
      var c := cfg;
      if r.shouldAdvance && !translated {
        c := c.(step := c.step + 1);
      }
      c := c.(lang := r.lang);
      usrCfgs := usrCfgs[id := c];
    }

    /** The send loop: every response of the batch is either sent now or queued, in order. */
    method Deliver(batch: seq<Response>, id: int, now: int)
      modifies this
      ensures State() == Dispatch(old(State()), batch, id, now)
    {
      var i := 0;
      while i < |batch|
        invariant 0 <= i <= |batch|
        invariant State() == Dispatch(old(State()), batch[..i], id, now)
      {
        var r := batch[i];
        assert batch[..i + 1][..i] == batch[..i];
        if "time" in r.additional {
          AddTimedResponse(r, r.additional["time"], id, now);
        } else {
          SendResponse(r, id);
        }
        i := i + 1;
      }
      assert batch[..|batch|] == batch;
    }

    /** The tail of send, once the batch is resolved. */
    method SendBatch(id: int, cfg: UsrCfg, rs: seq<Response>, now: int) returns (outcome: Outcome)
      modifies this
      ensures (State(), outcome) == Reply(str.i18n, old(State()), id, cfg, rs, now)
    {
      if cfg.lastRs.Some? && rs == [] {
        return Panicked;
      }
      var batch, translated := TranslateLastResponses(cfg, rs);
      Deliver(batch, id, now);
      var c := cfg.(lastRs := Some(batch));
      if batch == [] {
        usrCfgs := usrCfgs[id := c];
        return Panicked;
      }
      UpdateUsrCfg(id, c, batch[0], translated);
      outcome := Answered;
    }

    /** Resolution of the update's text against the story, then the reply. */
    method ResolveAndReply(u: Update, cfg: UsrCfg, now: int) returns (outcome: Outcome)
      modifies this
      ensures (State(), outcome) == Respond(old(str.View()), env, formatLocation, old(State()), u, cfg, now)
    {
      var m := ConvertText(u, formatLocation);
      if !CanResolve(str.View(), m) {
        return Panicked;
      }
      var rs := str.ResponsesWithLangStepTo(env, cfg.step, cfg.lang, m);
      outcome := SendBatch(u.chatId, cfg, rs, now);
    }

    /** send: handles one update, against the story as it stands when the update arrives. */
    method Send(u: Update, now: int) returns (outcome: Outcome)
      modifies this
      ensures (State(), outcome) == Handle(old(str.View()), env, formatLocation, old(State()), u, now)
    {
      ghost var sv := str.View();
      var cfg := PrepareUserConfig(u);
      assert str.View() == sv;
      var pending := RunTimedResponses(now);
      if pending {
        return Flushed;
      }
      outcome := ResolveAndReply(u, cfg, now);
    }

    /** A timer's callback: sends its response and takes the timer out of the queue. */
    method Fire(tid: nat)
      requires Due(State(), tid) && tid < |created|
      modifies this
      ensures State() == Fired(old(State()), tid)
    {
      var t := created[tid];
      SendResponse(t.response, t.chatId);
      armed := armed - {tid};
      timers := Without(timers, tid);
    }
  }

  // Properties of the session layer

  /**
   * What one response puts on the wire: an audio or photo payload with its
   * prefix stripped, announced by the matching chat action, or the text as a
   * plain message; every payload goes to the response's chat.
   */
  lemma SentPayload(r: Response, id: int)
    ensures HasPrefix(r.text, PrefixAudio) ==>
      Delivery(r, id) == [SendChatAction(id, "upload_document"), SendAudio(id, r.text[|PrefixAudio|..])]
    ensures !HasPrefix(r.text, PrefixAudio) && HasPrefix(r.text, PrefixPhoto) ==>
      Delivery(r, id) == [SendChatAction(id, "upload_photo"), SendPhoto(id, r.text[|PrefixPhoto|..])]
    ensures !HasPrefix(r.text, PrefixAudio) && !HasPrefix(r.text, PrefixPhoto) ==>
      Delivery(r, id) == [SendMessage(id, r.text)]
  {
  }

  /** An audio response goes out as a chat action on /sendChatAction, then the file on /sendAudio. */
  lemma AudioResponseEndpoints()
    ensures var out := Delivery(Response("a", "audio:a.mp3", "en", true, map[]), 6);
      && |out| == 2
      && URL(out[0]) == "/sendChatAction" && Content(out[0]) == "upload_document" && out[0].chatId == 6
      && URL(out[1]) == "/sendAudio" && Content(out[1]) == "a.mp3" && out[1].chatId == 6
  {
    var text := "audio:a.mp3";
    assert text[..|PrefixAudio|] == PrefixAudio;
    SentPayload(Response("a", text, "en", true, map[]), 6);
  }

  /**
   * A chat's first update creates its session at step 0 with the sender's
   * language code; later updates keep the session, seed an empty language
   * only, and keep the step unless the text is "/start", which resets it.
   */
  lemma PreparedSession(usrCfgs: map<int, UsrCfg>, u: Update)
    ensures var c := Prepared(usrCfgs, u);
      && (u.chatId !in usrCfgs ==> c == UsrCfg(0, u.languageCode, None))
      && (u.chatId in usrCfgs ==>
            var prev := usrCfgs[u.chatId];
            && c.lastRs == prev.lastRs
            && c.lang == (if prev.lang == "" then u.languageCode else prev.lang)
            && (u.text != "/start" ==> c.step == prev.step))
      && (u.text == "/start" ==> c.step == 0)
  {
  }

  /**
   * While a delayed response is queued, any update, from any chat, only
   * re-arms the oldest queued timer to fire now: nothing is resolved or sent,
   * no timer is made, and the session is only prepared.
   */
  lemma PendingPreempts(sv: StoryValue, env: Oracles, formatLocation: Location -> string, st: HState, u: Update, now: int)
    requires st.timers != []
    ensures var h := Handle(sv, env, formatLocation, st, u, now);
      && h.1 == Flushed
      && h.0.sent == st.sent && h.0.timers == st.timers && h.0.created == st.created
      && h.0.armed == st.armed[st.timers[0] := now]
      && h.0.usrCfgs == st.usrCfgs[u.chatId := Prepared(st.usrCfgs, u)]
  {
  }

  lemma {:induction false} DispatchSends(st: HState, rs: seq<Response>, id: int, now: int)
    ensures Dispatch(st, rs, id, now).sent == st.sent + Deliveries(Immediate(rs), id)
  {
    if rs != [] {
      var init, last := rs[..|rs| - 1], rs[|rs| - 1];
      DispatchSends(st, init, id, now);
      var mid := Dispatch(st, init, id, now);
      assert Dispatch(st, rs, id, now).sent == DispatchOne(mid, last, id, now).sent;
      if IsTimed(last) {
        assert Immediate(rs) == Immediate(init);
      } else {
        var imm := Immediate(init) + [last];
        assert Immediate(rs) == imm;
        assert imm[..|imm| - 1] == Immediate(init);
        assert Deliveries(imm, id) == Deliveries(Immediate(init), id) + Delivery(last, id);
      }
    }
  }

  lemma {:induction false} DispatchQueues(st: HState, rs: seq<Response>, id: int, now: int)
    ensures var st' := Dispatch(st, rs, id, now);
      && st'.usrCfgs == st.usrCfgs
      && st'.created == st.created + TimersFor(TimedOnes(rs), id)
      && st'.timers == st.timers + Ids(|st.created|, |TimedOnes(rs)|)
  {
    if rs != [] {
      var init, last := rs[..|rs| - 1], rs[|rs| - 1];
      DispatchQueues(st, init, id, now);
      var mid := Dispatch(st, init, id, now);
      var timed := TimedOnes(init);
      assert Dispatch(st, rs, id, now).created == DispatchOne(mid, last, id, now).created;
      assert Dispatch(st, rs, id, now).timers == DispatchOne(mid, last, id, now).timers;
      assert Dispatch(st, rs, id, now).usrCfgs == DispatchOne(mid, last, id, now).usrCfgs;
      if IsTimed(last) {
        assert TimedOnes(rs) == timed + [last];
        assert (timed + [last])[..|timed|] == timed;
        assert TimersFor(timed + [last], id) == TimersFor(timed, id) + [Timer(last, id)];
      } else {
        assert TimedOnes(rs) == timed;
      }
    }
  }

  lemma {:induction false} DispatchArms(st: HState, rs: seq<Response>, id: int, now: int)
    ensures var st' := Dispatch(st, rs, id, now);
      var timed := TimedOnes(rs);
      var c := |st.created|;
      && (forall t :: t in st'.armed <==> t in st.armed || c <= t < c + |timed|)
      && (forall j :: 0 <= j < |timed| ==> c + j in st'.armed && st'.armed[c + j] == now + timed[j].additional["time"].nanos)
      && (forall t :: t in st.armed && t < c ==> st'.armed[t] == st.armed[t])
  {
    if rs != [] {
      var init, last := rs[..|rs| - 1], rs[|rs| - 1];
      DispatchArms(st, init, id, now);
      DispatchQueues(st, init, id, now);
    }
  }

  /**
   * The send loop: the undelayed responses are sent in batch order, and each
   * delayed one gets a new timer, queued in batch order and armed for now plus
   * its delay; sessions and older timers are untouched.
   */
  lemma DispatchPartition(st: HState, rs: seq<Response>, id: int, now: int)
    ensures var st' := Dispatch(st, rs, id, now);
      var timed := TimedOnes(rs);
      var c := |st.created|;
      && st'.usrCfgs == st.usrCfgs
      && st'.sent == st.sent + Deliveries(Immediate(rs), id)
      && st'.created == st.created + TimersFor(timed, id)
      && st'.timers == st.timers + Ids(c, |timed|)
      && (forall t :: t in st'.armed <==> t in st.armed || c <= t < c + |timed|)
      && (forall j :: 0 <= j < |timed| ==> c + j in st'.armed && st'.armed[c + j] == now + timed[j].additional["time"].nanos)
      && (forall t :: t in st.armed && t < c ==> st'.armed[t] == st.armed[t])
  {
    DispatchSends(st, rs, id, now);
    DispatchQueues(st, rs, id, now);
    DispatchArms(st, rs, id, now);
  }

  /** The session language Resolve answers in is never empty. */
  lemma ResolvedLanguageIsSet(sv: StoryValue, env: Oracles, stp: nat, lang: string, m: string)
    requires CanResolve(sv, m)
    ensures forall r | r in Resolve(sv, env, stp, lang, m) :: r.lang != ""
  {
  }

  /**
   * Replying to a non-empty batch without a change of language: the batch is
   * delivered (undelayed responses now, delayed ones queued), becomes the
   * session's last batch, sets its language, and moves the step on by one
   * exactly when the batch says to advance.
   */
  lemma ReplyAdvances(i18n: I18nMap, st: HState, id: int, cfg: UsrCfg, rs: seq<Response>, now: int)
    requires rs != [] && (cfg.lastRs.None? || rs[0].lang == cfg.lang)
    ensures var h := Reply(i18n, st, id, cfg, rs, now);
      && h.1 == Answered
      && id in h.0.usrCfgs
      && h.0.usrCfgs[id] == UsrCfg(if rs[0].shouldAdvance then cfg.step + 1 else cfg.step, rs[0].lang, Some(rs))
      && h.0.sent == st.sent + Deliveries(Immediate(rs), id)
      && h.0.created == st.created + TimersFor(TimedOnes(rs), id)
  {
    assert TranslateLast(i18n, cfg, rs) == (rs, false);
    var st2 := Dispatch(st, rs, id, now);
    assert Reply(i18n, st, id, cfg, rs, now).0.usrCfgs == st2.usrCfgs[id := UpdatedCfg(cfg.(lastRs := Some(rs)), rs[0], false)];
    DispatchSends(st, rs, id, now);
    DispatchQueues(st, rs, id, now);
  }

  /**
   * Replying after a change of language: the previous batch, translated into
   * the new language, is sent again in full and at once (translations carry
   * no delay); the step stays where it is and the session takes the new
   * language.
   */
  lemma ReplyRetranslates(i18n: I18nMap, st: HState, id: int, cfg: UsrCfg, rs: seq<Response>, now: int)
    requires cfg.lastRs.Some? && rs != [] && rs[0].lang != cfg.lang
    ensures var h := Reply(i18n, st, id, cfg, rs, now);
      var batch := Translated(i18n, cfg.lastRs.value, rs[0].lang);
      && h.0.sent == st.sent + Deliveries(batch, id)
      && h.0.timers == st.timers && h.0.created == st.created
      && (batch != [] ==> h.1 == Answered && id in h.0.usrCfgs && h.0.usrCfgs[id] == UsrCfg(cfg.step, rs[0].lang, Some(batch)))
  {
    var batch := Translated(i18n, cfg.lastRs.value, rs[0].lang);
    UntimedBatch(batch);
    DispatchSends(st, batch, id, now);
    DispatchQueues(st, batch, id, now);
  }

  /**
   * Replying touches only the session of its own chat, and only adds to what
   * was sent and to the timers made.
   */
  lemma ReplyTouchesOwnChat(i18n: I18nMap, st: HState, id: int, cfg: UsrCfg, rs: seq<Response>, now: int)
    requires id in st.usrCfgs
    ensures var st' := Reply(i18n, st, id, cfg, rs, now).0;
      && st'.usrCfgs.Keys == st.usrCfgs.Keys
      && (forall c :: c != id && c in st.usrCfgs ==> st'.usrCfgs[c] == st.usrCfgs[c])
      && st.sent <= st'.sent && st.created <= st'.created
  {
    if !(cfg.lastRs.Some? && rs == []) {
      var batch := TranslateLast(i18n, cfg, rs).0;
      DispatchSends(st, batch, id, now);
      DispatchQueues(st, batch, id, now);
    }
  }

  /** Replying keeps the queue in step with the armed timers. */
  lemma ReplyKeepsQueue(i18n: I18nMap, st: HState, id: int, cfg: UsrCfg, rs: seq<Response>, now: int)
    requires QueueTracksArmed(st)
    ensures QueueTracksArmed(Reply(i18n, st, id, cfg, rs, now).0)
  {
    if !(cfg.lastRs.Some? && rs == []) {
      DispatchKeepsQueue(st, TranslateLast(i18n, cfg, rs).0, id, now);
    }
  }

  /**
   * An answered update without a change of language: the resolved batch is
   * delivered, becomes the session's last batch, sets its language, and
   * moves the step on by one exactly when the batch says to advance.
   */
  lemma AnswerAdvances(sv: StoryValue, env: Oracles, formatLocation: Location -> string, st: HState, u: Update, now: int)
    requires st.timers == [] && CanResolve(sv, ConvertText(u, formatLocation))
    ensures var cfg := Prepared(st.usrCfgs, u);
      var rs := Resolve(sv, env, cfg.step, cfg.lang, ConvertText(u, formatLocation));
      var h := Handle(sv, env, formatLocation, st, u, now);
      rs != [] && (cfg.lastRs.None? || rs[0].lang == cfg.lang) ==>
        && h.1 == Answered
        && h.0.usrCfgs[u.chatId] == UsrCfg(if rs[0].shouldAdvance then cfg.step + 1 else cfg.step, rs[0].lang, Some(rs))
        && h.0.sent == st.sent + Deliveries(Immediate(rs), u.chatId)
        && h.0.created == st.created + TimersFor(TimedOnes(rs), u.chatId)
  {
    var cfg := Prepared(st.usrCfgs, u);
    var st1 := st.(usrCfgs := st.usrCfgs[u.chatId := cfg]);
    var rs := Resolve(sv, env, cfg.step, cfg.lang, ConvertText(u, formatLocation));
    if rs != [] && (cfg.lastRs.None? || rs[0].lang == cfg.lang) {
      ReplyAdvances(sv.i18n, st1, u.chatId, cfg, rs, now);
    }
  }

  /**
   * After a change of language the previous batch, translated into the new
   * language, is sent again in full and at once; the step stays where it is
   * and the session takes the new language.
   */
  lemma Retranslation(sv: StoryValue, env: Oracles, formatLocation: Location -> string, st: HState, u: Update, now: int)
    requires st.timers == [] && CanResolve(sv, ConvertText(u, formatLocation))
    ensures var cfg := Prepared(st.usrCfgs, u);
      var rs := Resolve(sv, env, cfg.step, cfg.lang, ConvertText(u, formatLocation));
      var h := Handle(sv, env, formatLocation, st, u, now);
      cfg.lastRs.Some? && rs != [] && rs[0].lang != cfg.lang ==>
        var batch := Translated(sv.i18n, cfg.lastRs.value, rs[0].lang);
        && h.0.sent == st.sent + Deliveries(batch, u.chatId)
        && h.0.timers == st.timers && h.0.created == st.created
        && (batch != [] ==> h.1 == Answered && h.0.usrCfgs[u.chatId] == UsrCfg(cfg.step, rs[0].lang, Some(batch)))
  {
    var cfg := Prepared(st.usrCfgs, u);
    var st1 := st.(usrCfgs := st.usrCfgs[u.chatId := cfg]);
    var rs := Resolve(sv, env, cfg.step, cfg.lang, ConvertText(u, formatLocation));
    if cfg.lastRs.Some? && rs != [] && rs[0].lang != cfg.lang {
      ReplyRetranslates(sv.i18n, st1, u.chatId, cfg, rs, now);
    }
  }

  /** A batch none of whose responses carries a delay is sent in full. */
  lemma {:induction false} UntimedBatch(rs: seq<Response>)
    requires forall r | r in rs :: !IsTimed(r)
    ensures TimedOnes(rs) == [] && Immediate(rs) == rs
  {
    if rs != [] {
      UntimedBatch(rs[..|rs| - 1]);
      assert rs[..|rs| - 1] + [rs[|rs| - 1]] == rs;
    }
  }

  /** After an answered update the session always has a language. */
  lemma AnsweredLanguageIsSet(sv: StoryValue, env: Oracles, formatLocation: Location -> string, st: HState, u: Update, now: int)
    ensures var h := Handle(sv, env, formatLocation, st, u, now);
      h.1 == Answered ==> u.chatId in h.0.usrCfgs && h.0.usrCfgs[u.chatId].lang != ""
  {
    var cfg := Prepared(st.usrCfgs, u);
    var m := ConvertText(u, formatLocation);
    if st.timers == [] && CanResolve(sv, m) {
      var rs := Resolve(sv, env, cfg.step, cfg.lang, m);
      ResolvedLanguageIsSet(sv, env, cfg.step, cfg.lang, m);
      if rs != [] {
        assert rs[0] in rs;
      }
    }
  }

  /**
   * Handling an update touches only the session of its own chat, and only
   * adds to what was sent and to the timers made.
   */
  lemma HandleTouchesOwnChat(sv: StoryValue, env: Oracles, formatLocation: Location -> string, st: HState, u: Update, now: int)
    ensures var st' := Handle(sv, env, formatLocation, st, u, now).0;
      && u.chatId in st'.usrCfgs
      && (forall c :: c != u.chatId ==> (c in st'.usrCfgs <==> c in st.usrCfgs))
      && (forall c :: c != u.chatId && c in st.usrCfgs ==> st'.usrCfgs[c] == st.usrCfgs[c])
      && st.sent <= st'.sent && st.created <= st'.created
  {
    var cfg := Prepared(st.usrCfgs, u);
    var st1 := st.(usrCfgs := st.usrCfgs[u.chatId := cfg]);
    var m := ConvertText(u, formatLocation);
    if st.timers == [] && CanResolve(sv, m) {
      ReplyTouchesOwnChat(sv.i18n, st1, u.chatId, cfg, Resolve(sv, env, cfg.step, cfg.lang, m), now);
    }
  }

  // The queue of delayed responses

  lemma {:induction false} WithoutKeepsNoDup(q: seq<nat>, x: nat)
    requires NoDup(q)
    ensures NoDup(Without(q, x))
  {
    if q != [] {
      var rest := Without(q[1..], x);
      WithoutKeepsNoDup(q[1..], x);
      if q[0] != x {
        assert q[0] !in q[1..];
        var r := [q[0]] + rest;
        forall i, j | 0 <= i < j < |r|
          ensures r[i] != r[j]
        {
          assert r[j] == rest[j - 1];
          if i > 0 {
            assert r[i] == rest[i - 1];
          }
        }
      }
    }
  }

  lemma DispatchOneKeepsQueue(st: HState, r: Response, id: int, now: int)
    requires QueueTracksArmed(st)
    ensures QueueTracksArmed(DispatchOne(st, r, id, now))
  {
    if IsTimed(r) {
      var tid := |st.created|;
      assert tid !in st.timers;
      var q := st.timers + [tid];
      forall i, j | 0 <= i < j < |q|
        ensures q[i] != q[j]
      {
        if j == |q| - 1 {
          assert q[i] in st.timers;
        }
      }
    }
  }

  lemma {:induction false} DispatchKeepsQueue(st: HState, rs: seq<Response>, id: int, now: int)
    requires QueueTracksArmed(st)
    ensures QueueTracksArmed(Dispatch(st, rs, id, now))
  {
    if rs != [] {
      DispatchKeepsQueue(st, rs[..|rs| - 1], id, now);
      DispatchOneKeepsQueue(Dispatch(st, rs[..|rs| - 1], id, now), rs[|rs| - 1], id, now);
    }
  }

  /** Handling an update keeps the queue in step with the armed timers. */
  lemma HandleKeepsQueue(sv: StoryValue, env: Oracles, formatLocation: Location -> string, st: HState, u: Update, now: int)
    requires QueueTracksArmed(st)
    ensures QueueTracksArmed(Handle(sv, env, formatLocation, st, u, now).0)
  {
    var cfg := Prepared(st.usrCfgs, u);
    var st1 := st.(usrCfgs := st.usrCfgs[u.chatId := cfg]);
    var m := ConvertText(u, formatLocation);
    if st.timers != [] {
      assert st.timers[0] in st.timers;
    } else if CanResolve(sv, m) {
      ReplyKeepsQueue(sv.i18n, st1, u.chatId, cfg, Resolve(sv, env, cfg.step, cfg.lang, m), now);
    }
  }

  /**
   * With the corrected expiry, a firing timer sends its response and leaves
   * both the queue and the armed set, and the queue keeps tracking the armed
   * timers.
   */
  lemma FiredKeepsQueue(st: HState, tid: nat)
    requires QueueTracksArmed(st) && tid in st.armed
    ensures tid < |st.created|
    ensures var st' := Fired(st, tid);
      && QueueTracksArmed(st')
      && tid !in st'.timers && tid !in st'.armed
      && st'.sent == st.sent + Delivery(st.created[tid].response, st.created[tid].chatId)
  {
    WithoutKeepsNoDup(st.timers, tid);
  }

  /** When the timer that fires is the head of the queue, popping the head is the same as leaving the queue. */
  lemma InOrderExpiryAgrees(st: HState, tid: nat)
    requires QueueTracksArmed(st) && st.timers != [] && tid == st.timers[0]
    ensures tid in st.armed && tid < |st.created|
    ensures FiredAsWritten(st, tid) == Fired(st, tid)
  {
    assert st.timers[0] in st.timers;
    assert st.timers[0] !in st.timers[1..];
  }

  /** A batch with two delayed responses, the second due before the first. */
  const Slow: Response := Response("slow", "slow", "en", true, map["time" := Duration(200_000_000)])
  const Quick: Response := Response("quick", "quick", "en", true, map["time" := Duration(100_000_000)])

  /** The handler right after sending the batch [Slow, Quick] to chat 1 at time 0: both queued and armed. */
  const SlowQuickQueued: HState :=
    HState(map[], [0, 1], [Timer(Slow, 1), Timer(Quick, 1)], map[0 := 200_000_000, 1 := 100_000_000], [])

  /** The send loop does produce that state. */
  lemma SlowQuickDispatch()
    ensures Dispatch(Idle, [Slow, Quick], 1, 0) == SlowQuickQueued
  {
    var a := HState(map[], [0], [Timer(Slow, 1)], map[0 := 200_000_000], []);
    assert [Slow][..0] == [];
    assert Dispatch(Idle, [Slow], 1, 0) == a;
    assert [Slow, Quick][..1] == [Slow];
  }

  /** In that state the queue is in step with the armed timers, and Quick is due first. */
  lemma SlowQuickDue()
    ensures QueueTracksArmed(SlowQuickQueued) && Due(SlowQuickQueued, 1)
  {
  }

  /**
   * As written, timers that expire out of order deliver a response twice:
   * Quick fires first and pops Slow's id off the queue; a message at 150 ms
   * then re-arms Quick, which has already fired, and it is sent again, while
   * Slow is still armed but no longer queued.
   */
  lemma OutOfOrderExpiryDeliversTwice(sv: StoryValue, env: Oracles, formatLocation: Location -> string, u: Update)
    ensures var s1 := FiredAsWritten(SlowQuickQueued, 1);
      var h := Handle(sv, env, formatLocation, s1, u, 150_000_000);
      && s1.timers == [1] && !QueueTracksArmed(s1)
      && h.1 == Flushed && Due(h.0, 1)
      && var s3 := FiredAsWritten(h.0, 1);
      && s3.sent == Delivery(Quick, 1) + Delivery(Quick, 1)
      && s3.timers == [] && 0 in s3.armed
  {
    var s1 := FiredAsWritten(SlowQuickQueued, 1);
    assert 0 in s1.armed && 0 !in s1.timers;
    PendingPreempts(sv, env, formatLocation, s1, u, 150_000_000);
  }

  /**
   * With the corrected expiry the same run sends each response once: the
   * message at 150 ms flushes Slow, which is still queued, and the queue ends
   * empty with nothing armed.
   */
  lemma OutOfOrderExpiryDeliversOnce(sv: StoryValue, env: Oracles, formatLocation: Location -> string, u: Update)
    ensures var s1 := Fired(SlowQuickQueued, 1);
      var h := Handle(sv, env, formatLocation, s1, u, 150_000_000);
      && s1.timers == [0] && QueueTracksArmed(s1)
      && h.1 == Flushed && Due(h.0, 0)
      && var s3 := Fired(h.0, 0);
      && s3.sent == Delivery(Quick, 1) + Delivery(Slow, 1)
      && s3.timers == [] && s3.armed == map[]
  {
    assert [0, 1][1..] == [1];
    assert Without([1], 1) == [];
    assert Without([0, 1], 1) == [0];
    var s1 := Fired(SlowQuickQueued, 1);
    assert s1.armed == map[0 := 200_000_000];
    PendingPreempts(sv, env, formatLocation, s1, u, 150_000_000);
    assert Without([0], 0) == [];
  }
}
