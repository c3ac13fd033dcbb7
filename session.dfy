/**
 * The state of one use of the speech hook and its transitions: one method
 * per engine event (`onstart`, `onresult`, `onend`, `onerror`), one per
 * consumer call (`startListening`, `stopListening`, `toggleListening`), the
 * mount-time support check and the effect that pushes changed options into
 * the engine. Each state setter of the hook is a field assignment, applied
 * in the order the handler runs them.
 */
module SpeechSession {
  import opened Maybe
  import opened SpeechTranscript
  import opened SpeechErrors

  /** The options of the hook. */
  datatype Options = Options(continuous: bool, interimResults: bool, lang: string)

  /** The options in effect for the options object a consumer passes, where an
      absent field takes its default: not continuous, interim results on, Korean. */
  function ResolveOptions(continuous: Option<bool>, interimResults: Option<bool>, lang: Option<string>): (o: Options)
    ensures o.continuous <==> continuous == Some(true)
    ensures o.interimResults <==> interimResults != Some(false)
    ensures o.lang == "ko-KR" || lang == Some(o.lang)
    ensures lang.Some? ==> o.lang == lang.value
  {
    Options(
      match continuous case Some(c) => c case None => false,
      match interimResults case Some(i) => i case None => true,
      match lang case Some(l) => l case None => "ko-KR")
  }

  /** The hook's `browserSupport` value. */
  datatype Support = Support(isSupported: bool, errorMessage: Option<string>)

  /** A call the hook makes on the recognition engine. */
  datatype EngineCall = Start | Stop

  /** How the engine's `start()` returns: normally, by throwing an
      `InvalidStateError`, or by throwing some other error with a message. */
  datatype StartOutcome = Started | InvalidState | Failed(message: string)

  class Session {
    /** The options the hook was last rendered with. */
    var options: Options
    /** Committed text. */
    var transcript: string
    /** Pending interim text. */
    var currentInterimTranscript: string
    var isListening: bool
    var error: Option<string>
    var browserSupport: Support
    /** The engine (`recognitionRef.current`): none before the support check
        or in an unsupported browser, otherwise the options last pushed into it. */
    var engine: Option<Options>
    /** The `interimResults` option the event handlers captured when they were
        installed at mount; `onresult` filters interim text by it. */
    var handlerInterimResults: bool
    /** The calls made on the engine so far, in order. */
    var engineCalls: seq<EngineCall>
    /** Whether the mount-time support check has run. */
    ghost var mounted: bool

    ghost predicate Valid()
      reads this
    {
      && (!mounted ==> browserSupport == Support(false, None) && engine.None?)
      && (mounted && browserSupport.isSupported ==> browserSupport.errorMessage == None && engine.Some?)
      && (mounted && !browserSupport.isSupported ==> browserSupport.errorMessage == Some(UnsupportedMessage) && engine.None?)
      && (isListening ==> engine.Some?)
      && EndsWithSpace(transcript)
    }

    /** The transcript state as a value. */
    function State(): Transcript
      reads this
    {
      Transcript(transcript, currentInterimTranscript)
    }

    /** The `transcript` the hook returns: committed text followed by interim text. */
    function Shown(): string
      reads this
    {
      Display(State())
    }

    /** The state of the hook on its first render, before the support check. */
    constructor (options: Options)
      ensures Valid() && !mounted
      ensures this.options == options
      ensures transcript == "" && currentInterimTranscript == "" && !isListening && error == None
      ensures browserSupport == Support(false, None) && engine == None && engineCalls == []
    {
      this.options := options;
      transcript, currentInterimTranscript := "", "";
      isListening := false;
      error := None;
      browserSupport := Support(false, None);
      engine := None;
      handlerInterimResults := options.interimResults;
      engineCalls := [];
      mounted := false;
    }

    /**
     * The mount effect: `available` says whether the environment offers a
     * recognition engine. Without one, support is off with a fixed message;
     * with one, an engine is created with the current options and the
     * handlers capture the `interimResults` option.
     */
    method Mount(available: bool)
      requires Valid() && !mounted
      modifies this`browserSupport, this`engine, this`handlerInterimResults, this`mounted
      ensures Valid() && mounted
      ensures browserSupport.isSupported == available
      ensures available ==> engine == Some(options) && handlerInterimResults == options.interimResults
      ensures !available ==> browserSupport.errorMessage == Some(UnsupportedMessage) && engine == None
    {
      mounted := true;
      if !available {
        browserSupport := Support(false, Some(UnsupportedMessage));
        return;
      }
      browserSupport := Support(true, None);
      engine := Some(options);
      handlerInterimResults := options.interimResults;
    }

    /** A render with new options, after the mount effect has run: they are
        pushed into the engine if there is one. Transcript, listening state and the handlers' captured
        `interimResults` stay as they are. */
    method Configure(newOptions: Options)
      requires Valid() && mounted
      modifies this`options, this`engine
      ensures Valid()
      ensures options == newOptions
      ensures engine == if old(engine).Some? then Some(newOptions) else None
    {
      options := newOptions;
      if engine.Some? {
        engine := Some(newOptions);
      }
    }

    /** `onresult`: the event's new results are split into final and interim
        text, final text is committed, interim text replaces the buffer. */
    method OnResult(ev: ResultEvent)
      requires Valid() && engine.Some?
      modifies this`transcript, this`currentInterimTranscript
      ensures Valid()
      ensures State() == AfterEvent(old(State()), ev, handlerInterimResults)
      ensures old(transcript) <= transcript
    {
      var interim, final := CollectResults(ev);
      if final != "" {
        transcript := transcript + final + " ";
        currentInterimTranscript := "";
      }
      if interim != "" && handlerInterimResults {
        currentInterimTranscript := interim;
      }
    }

    /** `onstart`: listening begins, the error is cleared and both text buffers are emptied. */
    method OnStart()
      requires Valid() && engine.Some?
      modifies this`isListening, this`error, this`transcript, this`currentInterimTranscript
      ensures Valid()
      ensures isListening && error == None
      ensures State() == AfterStart() && Shown() == ""
    {
      isListening := true;
      error := None;
      transcript := "";
      currentInterimTranscript := "";
    }

    /** `onend`: listening stops and pending interim text is committed. */
    method OnEnd()
      requires Valid() && engine.Some?
      modifies this`isListening, this`transcript, this`currentInterimTranscript
      ensures Valid()
      ensures !isListening
      ensures State() == AfterEnd(old(State()))
      ensures old(transcript) <= transcript && currentInterimTranscript == ""
    {
      isListening := false;
      if currentInterimTranscript != "" {
        transcript := transcript + currentInterimTranscript + " ";
        currentInterimTranscript := "";
      }
    }

    /** `onerror`: listening stops and the error code's message becomes the error. */
    method OnError(code: string)
      requires Valid() && engine.Some?
      modifies this`isListening, this`error
      ensures Valid()
      ensures !isListening && error == Some(ErrorMessage(code))
    {
      isListening := false;
      error := Some(ErrorMessage(code));
    }

    /**
     * `startListening`: with an engine in a supported browser, `start()` is
     * called, and an exception from it becomes the error; in an unsupported
     * browser the support message (null before the check) becomes the error
     * and the engine is not called. Transcript and listening state are never
     * touched: listening begins only with `onstart`.
     */
    method StartListening(outcome: StartOutcome)
      requires Valid()
      modifies this`error, this`engineCalls
      ensures Valid()
      ensures browserSupport.isSupported ==> engineCalls == old(engineCalls) + [Start]
      ensures browserSupport.isSupported && outcome == Started ==> error == old(error)
      ensures browserSupport.isSupported && outcome == InvalidState ==> error == Some(AlreadyActiveMessage)
      ensures browserSupport.isSupported && outcome.Failed? ==> error == Some(StartErrorPrefix + outcome.message)
      ensures !browserSupport.isSupported ==> engineCalls == old(engineCalls) && error == browserSupport.errorMessage
    {
      if engine.Some? && browserSupport.isSupported {
        engineCalls := engineCalls + [Start];
        match outcome
        case Started =>
        case InvalidState =>
          error := Some(AlreadyActiveMessage);
        case Failed(message) =>
          error := Some(StartErrorPrefix + message);
      } else if !browserSupport.isSupported {
        error := browserSupport.errorMessage;
      }
    }

    /** `stopListening`: the engine's `stop()` is called only while listening. */
    method StopListening()
      requires Valid()
      modifies this`engineCalls
      ensures Valid()
      ensures engineCalls == old(engineCalls) + (if isListening then [Stop] else [])
    {
      if engine.Some? && isListening {
        engineCalls := engineCalls + [Stop];
      }
    }

    /** `toggleListening`: stops when listening, starts otherwise. */
    method ToggleListening(outcome: StartOutcome)
      requires Valid()
      modifies this`error, this`engineCalls
      ensures Valid()
      ensures isListening ==> engineCalls == old(engineCalls) + [Stop] && error == old(error)
      ensures !isListening && browserSupport.isSupported ==> engineCalls == old(engineCalls) + [Start]
      ensures !isListening && browserSupport.isSupported && outcome == Started ==> error == old(error)
      ensures !isListening && browserSupport.isSupported && outcome == InvalidState ==> error == Some(AlreadyActiveMessage)
      ensures !isListening && browserSupport.isSupported && outcome.Failed? ==> error == Some(StartErrorPrefix + outcome.message)
      ensures !isListening && !browserSupport.isSupported ==> engineCalls == old(engineCalls) && error == browserSupport.errorMessage
    {
      if isListening {
        StopListening();
      } else {
        StartListening(outcome);
      }
    }
  }

  // A session that commits "hello", proposes "wor" as interim text, then
  // finalises "world". The engine resends the results it already reported.
  const Hello := SpeechResult("hello", true)
  const HelloEvent := ResultEvent(0, [Hello])
  const WorEvent := ResultEvent(1, [Hello, SpeechResult("wor", false)])
  const WorldEvent := ResultEvent(1, [Hello, SpeechResult("world", true)])

  /** From an empty start, the final "hello" is committed with one space. */
  lemma HelloStep()
    ensures AfterEvent(AfterStart(), HelloEvent, true) == Transcript("hello ", "")
  {
    assert NewResults(HelloEvent) == [Hello];
    SingleResultText(Hello);
  }

  /** The interim "wor" is pending after "hello ". */
  lemma WorStep()
    ensures AfterEvent(Transcript("hello ", ""), WorEvent, true) == Transcript("hello ", "wor")
  {
    var wor := WorEvent.results[1];
    assert NewResults(WorEvent) == [wor];
    SingleResultText(wor);
  }

  /** The final "world" is committed and the interim "wor" is dropped. */
  lemma WorldStep()
    ensures AfterEvent(Transcript("hello ", "wor"), WorldEvent, true) == Transcript("hello world ", "")
  {
    var world := WorldEvent.results[1];
    assert NewResults(WorldEvent) == [world];
    SingleResultText(world);
  }

  /** A session with interim results on, mounted in a supporting browser,
      whose start the engine has acknowledged: listening, with empty text. */
  method Listening() returns (s: Session)
    ensures fresh(s) && s.Valid() && s.engine.Some? && s.handlerInterimResults
    ensures s.isListening && s.State() == AfterStart()
  {
    s := new Session(ResolveOptions(Some(true), Some(true), None));
    s.Mount(true);
    s.StartListening(Started);
    s.OnStart();
  }

  /** The event with the final "hello" delivered to a listening session with empty text. */
  method HearHello(s: Session) returns (shown: string)
    requires s.Valid() && s.engine.Some? && s.handlerInterimResults && s.State() == AfterStart()
    modifies s`transcript, s`currentInterimTranscript
    ensures s.Valid() && s.State() == Transcript("hello ", "") && shown == "hello "
  {
    HelloStep();
    s.OnResult(HelloEvent);
    shown := s.Shown();
  }

  /** The event with the interim "wor" delivered after "hello ". */
  method HearWor(s: Session) returns (shown: string)
    requires s.Valid() && s.engine.Some? && s.handlerInterimResults && s.State() == Transcript("hello ", "")
    modifies s`transcript, s`currentInterimTranscript
    ensures s.Valid() && s.State() == Transcript("hello ", "wor") && shown == "hello wor"
  {
    WorStep();
    s.OnResult(WorEvent);
    shown := s.Shown();
    assert shown == "hello " + "wor";
  }

  /** The event with the final "world" delivered while "wor" is pending. */
  method HearWorld(s: Session) returns (shown: string)
    requires s.Valid() && s.engine.Some? && s.handlerInterimResults && s.State() == Transcript("hello ", "wor")
    modifies s`transcript, s`currentInterimTranscript
    ensures s.Valid() && s.State() == Transcript("hello world ", "") && shown == "hello world "
  {
    WorldStep();
    s.OnResult(WorldEvent);
    shown := s.Shown();
    assert shown == "hello world " + "";
  }

  /** The engine ends a session whose interim text is empty: listening
      stops and the text shown stays the committed text. */
  method Finish(s: Session) returns (shown: string, listening: bool)
    requires s.Valid() && s.engine.Some? && s.currentInterimTranscript == ""
    modifies s`isListening, s`transcript, s`currentInterimTranscript
    ensures shown == old(s.transcript) && !listening
  {
    s.OnEnd();
    shown := s.Shown();
    listening := s.isListening;
  }

  /**
   * A whole session: the engine acknowledges the start, commits "hello",
   * proposes "wor" as interim text, then finalises "world" and ends. The
   * consumer sees "hello ", then "hello wor", then "hello world ", which the
   * end of the session leaves as it is.
   */
  method HelloWorldSession() returns (afterHello: string, afterWor: string, afterWorld: string, atEnd: string, listening: bool)
    ensures afterHello == "hello " && afterWor == "hello wor" && afterWorld == "hello world "
    ensures atEnd == "hello world " && !listening
  {
    var s := Listening();
    afterHello := HearHello(s);
    afterWor := HearWor(s);
    afterWorld := HearWorld(s);
    atEnd, listening := Finish(s);
  }

  /** Starting again while listening leaves the transcript and the listening
      state alone and reports that recognition is already active. */
  method RestartWhileListening(ev: ResultEvent) returns (before: string, after: string, listening: bool, error: Option<string>)
    ensures after == before && listening
    ensures error == Some(AlreadyActiveMessage)
  {
    var s := new Session(ResolveOptions(None, None, None));
    s.Mount(true);
    s.StartListening(Started);
    s.OnStart();
    s.OnResult(ev);
    before := s.Shown();
    s.StartListening(InvalidState);
    after := s.Shown();
    listening := s.isListening;
    error := s.error;
  }

  /** In an unsupported browser a start request makes no engine call and
      reports the support message. */
  method StartWithoutSupport() returns (calls: seq<EngineCall>, error: Option<string>)
    ensures calls == [] && error == Some(UnsupportedMessage)
  {
    var s := new Session(ResolveOptions(None, None, None));
    s.Mount(false);
    s.ToggleListening(Started);
    calls := s.engineCalls;
    error := s.error;
  }
}
