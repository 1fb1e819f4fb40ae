/**
 * The session state of one user: configuration, conversation history and raw log, and
 * the operations the chat, settings and log tabs perform on them.
 */
module Session {
  import opened Wrappers
  import opened Conversation
  import opened Streaming
  import opened Normalizer
  import opened Settings
  import opened Interaction

  /** Whether a chat session object is bound (`chat_session` is not None). */
  datatype ChatBinding = Unbound | Bound

  /** The session store as `initialize_session_state` finds it: `None` marks a missing key. */
  datatype Store = Store(
    apiKey: Option<string>,
    modelName: Option<string>,
    chatSession: Option<ChatBinding>,
    history: Option<seq<Turn>>,
    systemInstruction: Option<string>,
    temperature: Option<real>,
    topP: Option<real>,
    topK: Option<int>,
    maxOutputTokens: Option<int>,
    safetySettings: Option<map<HarmCategory, Threshold>>,
    uiSettings: Option<UiSettings>,
    rawLogs: Option<seq<LogEntry>>)

  const EmptyStore: Store := Store(None, None, None, None, None, None, None, None, None, None, None, None)

  /** Every key is present. */
  predicate Complete(s: Store) {
    s.apiKey.Some? && s.modelName.Some? && s.chatSession.Some? && s.history.Some? &&
    s.systemInstruction.Some? && s.temperature.Some? && s.topP.Some? && s.topK.Some? &&
    s.maxOutputTokens.Some? && s.safetySettings.Some? && s.uiSettings.Some? && s.rawLogs.Some?
  }

  /** Every key present in `s` has the same value in `r`. */
  predicate KeepsPresent(s: Store, r: Store) {
    (s.apiKey.Some? ==> r.apiKey == s.apiKey) &&
    (s.modelName.Some? ==> r.modelName == s.modelName) &&
    (s.chatSession.Some? ==> r.chatSession == s.chatSession) &&
    (s.history.Some? ==> r.history == s.history) &&
    (s.systemInstruction.Some? ==> r.systemInstruction == s.systemInstruction) &&
    (s.temperature.Some? ==> r.temperature == s.temperature) &&
    (s.topP.Some? ==> r.topP == s.topP) &&
    (s.topK.Some? ==> r.topK == s.topK) &&
    (s.maxOutputTokens.Some? ==> r.maxOutputTokens == s.maxOutputTokens) &&
    (s.safetySettings.Some? ==> r.safetySettings == s.safetySettings) &&
    (s.uiSettings.Some? ==> r.uiSettings == s.uiSettings) &&
    (s.rawLogs.Some? ==> r.rawLogs == s.rawLogs)
  }

  /** Every key missing from `s` holds its default value in `r`. */
  predicate MissingGetDefaults(s: Store, r: Store) {
    (s.apiKey.None? ==> r.apiKey == Some(DefaultApiKey)) &&
    (s.modelName.None? ==> r.modelName == Some(DefaultModelName)) &&
    (s.chatSession.None? ==> r.chatSession == Some(Unbound)) &&
    (s.history.None? ==> r.history == Some([])) &&
    (s.systemInstruction.None? ==> r.systemInstruction == Some(DefaultSystemInstruction)) &&
    (s.temperature.None? ==> r.temperature == Some(DefaultTemperature)) &&
    (s.topP.None? ==> r.topP == Some(DefaultTopP)) &&
    (s.topK.None? ==> r.topK == Some(DefaultTopK)) &&
    (s.maxOutputTokens.None? ==> r.maxOutputTokens == Some(DefaultMaxOutputTokens)) &&
    (s.safetySettings.None? ==> r.safetySettings == Some(DefaultSafetySettings)) &&
    (s.uiSettings.None? ==> r.uiSettings == Some(DefaultUiSettings)) &&
    (s.rawLogs.None? ==> r.rawLogs == Some([]))
  }

  function Fill<T>(o: Option<T>, default: T): Option<T> {
    if o.Some? then o else Some(default)
  }

  /** `initialize_session_state`: every missing key gets its default, present keys stay. */
  function Initialize(s: Store): (r: Store)
    ensures Complete(r) && KeepsPresent(s, r) && MissingGetDefaults(s, r)
  {
    Store(
      Fill(s.apiKey, DefaultApiKey),
      Fill(s.modelName, DefaultModelName),
      Fill(s.chatSession, Unbound),
      Fill(s.history, []),
      Fill(s.systemInstruction, DefaultSystemInstruction),
      Fill(s.temperature, DefaultTemperature),
      Fill(s.topP, DefaultTopP),
      Fill(s.topK, DefaultTopK),
      Fill(s.maxOutputTokens, DefaultMaxOutputTokens),
      Fill(s.safetySettings, DefaultSafetySettings),
      Fill(s.uiSettings, DefaultUiSettings),
      Fill(s.rawLogs, []))
  }

  /** On a rerun, when every key is present, initialisation changes nothing. */
  lemma InitializeCompleteIsNoOp(s: Store)
    requires Complete(s)
    ensures Initialize(s) == s
  {
  }

  lemma InitializeIdempotent(s: Store)
    ensures Initialize(Initialize(s)) == Initialize(s)
  {
    InitializeCompleteIsNoOp(Initialize(s));
  }

  /**
   * A session stored before a key was introduced (here `ui_settings`) gains that key with
   * its default, and nothing else changes.
   */
  lemma LateKeyGetsDefault(s: Store)
    requires s.uiSettings.None? && Complete(s.(uiSettings := Some(DefaultUiSettings)))
    ensures Initialize(s) == s.(uiSettings := Some(DefaultUiSettings))
  {
  }

  /** The first run holds the value every key of `initialize_session_state` is given. */
  lemma FirstRunDefaults()
    ensures var r := Initialize(EmptyStore);
            r.apiKey == Some("") && r.modelName == Some("gemini-1.5-pro-latest") &&
            r.chatSession == Some(Unbound) && r.history == Some([]) &&
            r.systemInstruction == Some("You are a helpful and friendly AI assistant. Please respond in Korean.") &&
            r.temperature == Some(0.7) && r.topP == Some(1.0) && r.topK == Some(40) &&
            r.maxOutputTokens == Some(2048) &&
            r.safetySettings == Some(map[Harassment := BlockNone, HateSpeech := BlockNone,
                                         SexuallyExplicit := BlockNone, DangerousContent := BlockNone]) &&
            r.uiSettings == Some(UiSettings("🧑‍💻", "🤖", 40)) &&
            r.rawLogs == Some([])
  {
  }

  /** The model turn a reply adds: one turn with exactly one text part, or none on failure. */
  function ModelTurns(reply: Reply): (r: seq<Turn>)
    ensures ReplyResult(reply).Failure? ==> r == []
    ensures ReplyResult(reply).Success? ==>
              r == [Turn(Model, [Text(ReplyResult(reply).value.0)])]
  {
    match ReplyResult(reply)
    case Success((t, _)) => [Turn(Model, [Text(t)])]
    case Failure(_) => []
  }

  /** The raw-log entry of a send attempt whose reply is `reply`. */
  function EntryFor(timestamp: string, request: RequestBody, reply: Reply): (e: LogEntry)
    ensures WellFormedEntry(e) && e.timestamp == timestamp && e.request == request
    ensures e.response.success <==> ReplyResult(reply).Success?
    ensures ReplyResult(reply).Success? ==>
              e.response.body == Record(ResponseToDict(Some(ReplyResult(reply).value.1)))
    ensures ReplyResult(reply).Failure? ==> e.response.body == ErrorText(ReplyResult(reply).error)
  {
    match ReplyResult(reply)
    case Success((_, response)) => SuccessEntry(timestamp, request, response)
    case Failure(error) => FailureEntry(timestamp, request, error)
  }

  /** A streamed reply that raises mid-stream adds no model turn and logs the error. */
  lemma InterruptedStreamKeepsOnlyUserTurn(events: seq<ChunkEvent>, result: Response, timestamp: string, request: RequestBody)
    requires exists j :: 0 <= j < |events| && events[j].Raise?
    ensures ModelTurns(Streamed(events, result)) == []
    ensures var e := EntryFor(timestamp, request, Streamed(events, result));
            !e.response.success && e.response.body == ErrorText(events[FirstRaise(events).value].error)
  {
  }

  /** A stream that completes adds one model turn holding the concatenated chunk texts. */
  lemma CompletedStreamAddsJoinedText(events: seq<ChunkEvent>, result: Response)
    requires forall j :: 0 <= j < |events| ==> events[j].Chunk?
    ensures ModelTurns(Streamed(events, result)) == [Turn(Model, [Text(Joined(events))])]
  {
    StreamedTextIsJoined(events, result);
  }

  /**
   * The body of the send path's `try` block once `send_message` has been called: consume
   * the reply (streamed or not) into the model turn, and build the raw-log entry; an
   * exception anywhere yields the failure entry and no model turn.
   */
  method ReceiveReply(reply: Reply, request: RequestBody, timestamp: string)
    returns (modelTurns: seq<Turn>, entry: LogEntry)
    ensures modelTurns == ModelTurns(reply)
    ensures entry == EntryFor(timestamp, request, reply)
  {
    match reply
    case SendRaised(e) =>
      modelTurns, entry := [], FailureEntry(timestamp, request, e);
    case Streamed(events, result) =>
      var outcome := AggregateStream(events);
      match outcome {
        case Completed(fullText) =>
          modelTurns, entry := [Turn(Model, [Text(fullText)])], SuccessEntry(timestamp, request, result);
        case Interrupted(e, _) =>
          modelTurns, entry := [], FailureEntry(timestamp, request, e);
      }
    case Whole(text, result) =>
      match text {
        case Success(t) =>
          modelTurns, entry := [Turn(Model, [Text(t)])], SuccessEntry(timestamp, request, result);
        case Failure(e) =>
          modelTurns, entry := [], FailureEntry(timestamp, request, e);
      }
  }

  datatype SendStatus = NotSubmitted | MissingApiKey | ModelInitFailed | Sent(success: bool)

  /** How a send attempt ends, given the state it starts from and what the remote side does. */
  function SendStatusFor(prompt: string, apiKey: string, chat: ChatBinding, modelCreated: bool, reply: Reply): SendStatus {
    if prompt == "" then NotSubmitted
    else if apiKey == "" then MissingApiKey
    else if chat == Unbound && !modelCreated then ModelInitFailed
    else Sent(ReplyResult(reply).Success?)
  }

  datatype EditStatus = EditOutOfRange | EditSkipped | Edited

  /** The editor's turn-i change: an edit only when the new text differs from the current one. */
  function EditStatusFor(history: seq<Turn>, i: nat, newText: string): EditStatus {
    if i >= |history| then EditOutOfRange
    else if newText == CurrentText(history[i]) then EditSkipped
    else Edited
  }

  /**
   * The state of the safety loop after its first `k` passes: the categories before
   * position `k` hold their picked threshold (or keep their own), the rest are untouched.
   */
  predicate PickedUpTo(settings: map<HarmCategory, Threshold>, original: map<HarmCategory, Threshold>,
                       picks: map<HarmCategory, Threshold>, k: nat)
  {
    settings.Keys == original.Keys &&
    forall c :: c in settings ==>
      settings[c] == if CategoryPosition(c) < k && c in picks then picks[c] else original[c]
  }

  /** One pass of the loop moves the loop state from `k` to `k + 1`. */
  lemma PickStep(settings: map<HarmCategory, Threshold>, original: map<HarmCategory, Threshold>,
                 picks: map<HarmCategory, Threshold>, k: nat)
    requires k < CategoryCount && CategoryAt(k) in settings
    requires PickedUpTo(settings, original, picks, k)
    ensures PickedUpTo(settings[CategoryAt(k) := if CategoryAt(k) in picks then picks[CategoryAt(k)] else settings[CategoryAt(k)]],
                       original, picks, k + 1)
  {
  }

  /**
   * The safety-settings loop over the categories in the dict's order: each category takes
   * the threshold picked in its select box (`picks`), or keeps its own when nothing was picked.
   */
  method ApplyPicks(original: map<HarmCategory, Threshold>, picks: map<HarmCategory, Threshold>)
    returns (settings: map<HarmCategory, Threshold>)
    requires original.Keys == AllCategories
    ensures settings.Keys == original.Keys
    ensures forall c :: c in settings ==> settings[c] == if c in picks then picks[c] else original[c]
  {
    settings := original;
    for k := 0 to CategoryCount
      invariant PickedUpTo(settings, original, picks, k)
    {
      var category := CategoryAt(k);
      assert category in settings by { assert category in AllCategories; }
      var pick := if category in picks then Some(picks[category]) else None;
      PickStep(settings, original, picks, k);
      settings := settings[category := SelectedThreshold(settings[category], pick)];
    }
  }

  class SessionState {
    var apiKey: string
    var modelName: string
    var chatSession: ChatBinding
    var history: seq<Turn>
    var systemInstruction: string
    var temperature: real
    var topP: real
    var topK: int
    var maxOutputTokens: int
    var safetySettings: map<HarmCategory, Threshold>
    var uiSettings: UiSettings
    var rawLogs: seq<LogEntry>

    /**
     * The parameters are within the widget ranges, all four categories are configured,
     * every turn has a part, and every log entry is flagged consistently with its body.
     */
    ghost predicate Valid()
      reads this
    {
      ParametersInRange(temperature, topP, topK, maxOutputTokens) &&
      safetySettings.Keys == AllCategories &&
      (forall k :: 0 <= k < |history| ==> |history[k].parts| > 0) &&
      (forall k :: 0 <= k < |rawLogs| ==> WellFormedEntry(rawLogs[k]))
    }

    /** The state seen as a complete store. */
    function Stored(): (s: Store)
      reads this
      ensures Complete(s)
    {
      Store(Some(apiKey), Some(modelName), Some(chatSession), Some(history), Some(systemInstruction),
            Some(temperature), Some(topP), Some(topK), Some(maxOutputTokens), Some(safetySettings),
            Some(uiSettings), Some(rawLogs))
    }

    /** The first run of the app: `initialize_session_state` on an empty store. */
    constructor ()
      ensures Valid()
      ensures Stored() == Initialize(EmptyStore)
    {
      apiKey := DefaultApiKey;
      modelName := DefaultModelName;
      chatSession := Unbound;
      history := [];
      systemInstruction := DefaultSystemInstruction;
      temperature := DefaultTemperature;
      topP := DefaultTopP;
      topK := DefaultTopK;
      maxOutputTokens := DefaultMaxOutputTokens;
      safetySettings := DefaultSafetySettings;
      uiSettings := DefaultUiSettings;
      rawLogs := [];
    }

    /** The request snapshot that is logged with a send attempt. */
    function Request(): (r: RequestBody)
      reads this`modelName, this`systemInstruction, this`temperature, this`topP, this`topK,
            this`maxOutputTokens, this`safetySettings
      ensures r.modelName == modelName && r.systemInstruction == systemInstruction
      ensures r.generationConfig == GenerationConfig(temperature, topP, topK, maxOutputTokens)
      ensures r.safetySettings == SafetyLog(safetySettings)
    {
      RequestBody(modelName, systemInstruction,
                  GenerationConfig(temperature, topP, topK, maxOutputTokens),
                  SafetyLog(safetySettings))
    }

    /**
     * `get_gemini_model`: without an API key nothing happens; otherwise a new chat session
     * is bound when the remote model can be created (`modelCreated`).
     */
    method RecreateChatSession(modelCreated: bool) returns (ok: bool)
      requires Valid()
      modifies this`chatSession
      ensures Valid()
      ensures ok == (apiKey != "" && modelCreated)
      ensures chatSession == if ok then Bound else old(chatSession)
    {
      if apiKey == "" {
        return false;
      }
      if modelCreated {
        chatSession := Bound;
        return true;
      }
      return false;
    }

    /**
     * Submitting a prompt in the chat tab. After the user turn is appended, exactly one
     * raw-log entry is appended; the model turn is appended only when the whole reply
     * was received.
     */
    method Send(prompt: string, image: Option<ImageRef>, modelCreated: bool, reply: Reply, timestamp: string)
      returns (status: SendStatus)
      requires Valid()
      modifies this`chatSession, this`history, this`rawLogs
      ensures Valid()
      ensures status == SendStatusFor(prompt, old(apiKey), old(chatSession), modelCreated, reply)
      ensures !status.Sent? ==> unchanged(this)
      ensures status.Sent? ==>
                chatSession == Bound &&
                history == old(history) + [Turn(User, UserParts(prompt, image))] + ModelTurns(reply) &&
                rawLogs == old(rawLogs) + [EntryFor(timestamp, old(Request()), reply)]
    {
      if prompt == "" {
        return NotSubmitted;
      }
      if apiKey == "" {
        return MissingApiKey;
      }
      if chatSession == Unbound {
        var ok := RecreateChatSession(modelCreated);
        if !ok {
          return ModelInitFailed;
        }
      }
      var request := Request();
      var success := Exchange(Turn(User, UserParts(prompt, image)), request, reply, timestamp);
      return Sent(success);
    }

    /**
     * The send path once a chat session is bound: append the user turn, then the model
     * turn of the reply if it arrived whole, then exactly one raw-log entry.
     */
    method Exchange(userTurn: Turn, request: RequestBody, reply: Reply, timestamp: string) returns (success: bool)
      requires Valid() && |userTurn.parts| > 0
      modifies this`history, this`rawLogs
      ensures Valid()
      ensures success == ReplyResult(reply).Success?
      ensures history == old(history) + [userTurn] + ModelTurns(reply)
      ensures rawLogs == old(rawLogs) + [EntryFor(timestamp, request, reply)]
    {
      history := history + [userTurn];
      var modelTurns, entry := ReceiveReply(reply, request, timestamp);
      history := history + modelTurns;
      rawLogs := rawLogs + [entry];
      success := entry.response.success;
    }

    /**
     * Editing turn `i` in the log tab: when `newText` differs from the turn's current text,
     * the first text part is replaced, or the text is appended if the turn has none.
     * Returns whether the history changed (the caller must then rebuild the chat session).
     */
    method EditTurnText(i: nat, newText: string) returns (status: EditStatus)
      requires Valid()
      modifies this`history
      ensures Valid()
      ensures status == EditStatusFor(old(history), i, newText)
      ensures status == Edited ==>
                history == old(history)[i := Turn(old(history)[i].role, EditedParts(old(history)[i].parts, newText))]
      ensures status != Edited ==> history == old(history)
    {
      if i >= |history| {
        return EditOutOfRange;
      }
      var message := history[i];
      var currentText := FirstText(message.parts, "");
      if newText == currentText {
        return EditSkipped;
      }
      var textPartIndex := FindTextPartIndex(message.parts);
      var parts := message.parts;
      if textPartIndex != -1 {
        EditReplacesFirstText(parts, newText, textPartIndex);
        parts := parts[textPartIndex := Text(newText)];
      } else {
        EditAppendsWhenNoText(parts, newText);
        parts := parts + [Text(newText)];
      }
      history := history[i := Turn(message.role, parts)];
      return Edited;
    }

    /** Deleting turn `i` in the log tab: exactly that turn goes, the rest keep their order. */
    method DeleteTurn(i: nat) returns (deleted: bool)
      requires Valid()
      modifies this`history
      ensures Valid()
      ensures deleted == (i < |old(history)|)
      ensures deleted ==> history == old(history)[..i] + old(history)[i + 1..]
      ensures deleted ==> |history| == |old(history)| - 1 &&
                          (forall j :: 0 <= j < i ==> history[j] == old(history)[j]) &&
                          (forall j :: i <= j < |history| ==> history[j] == old(history)[j + 1])
      ensures !deleted ==> history == old(history)
    {
      if i >= |history| {
        return false;
      }
      history := history[..i] + history[i + 1..];
      return true;
    }

    /**
     * The safety-settings loop of the settings tab: every configured category takes the
     * threshold picked in its select box (`picks`), or keeps its threshold when nothing
     * was picked. Categories are never added or removed.
     */
    method UpdateSafetySettings(picks: map<HarmCategory, Threshold>)
      requires Valid()
      modifies this`safetySettings
      ensures Valid()
      ensures safetySettings.Keys == old(safetySettings).Keys
      ensures forall c :: c in safetySettings ==>
                safetySettings[c] == if c in picks then picks[c] else old(safetySettings)[c]
    {
      var settings := ApplyPicks(safetySettings, picks);
      safetySettings := settings;
    }

    /** The parameter widgets: values outside their ranges are refused and change nothing. */
    method SetParameters(newTemperature: real, newTopP: real, newTopK: int, newMaxOutputTokens: int)
      returns (accepted: bool)
      requires Valid()
      modifies this`temperature, this`topP, this`topK, this`maxOutputTokens
      ensures Valid()
      ensures accepted == ParametersInRange(newTemperature, newTopP, newTopK, newMaxOutputTokens)
      ensures accepted ==> temperature == newTemperature && topP == newTopP &&
                           topK == newTopK && maxOutputTokens == newMaxOutputTokens
      ensures !accepted ==> temperature == old(temperature) && topP == old(topP) &&
                            topK == old(topK) && maxOutputTokens == old(maxOutputTokens)
    {
      accepted := ParametersInRange(newTemperature, newTopP, newTopK, newMaxOutputTokens);
      if accepted {
        temperature, topP, topK, maxOutputTokens := newTemperature, newTopP, newTopK, newMaxOutputTokens;
      }
    }

    /** The system-prompt text area. The bound chat session is not rebuilt. */
    method SetSystemInstruction(text: string)
      requires Valid()
      modifies this`systemInstruction
      ensures Valid()
      ensures systemInstruction == text
    {
      systemInstruction := text;
    }

    /** The "apply API key" button stores the key whether or not configuring the client works. */
    method SetApiKey(key: string)
      requires Valid()
      modifies this`apiKey
      ensures Valid()
      ensures apiKey == key
    {
      apiKey := key;
    }
  }
}
