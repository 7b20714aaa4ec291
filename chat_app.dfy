/** The chat screen: settings loaded from and saved to local storage, the
    transcript, the input box, the loading flag and the current view. */
module ChatApp {
  import opened Wrappers
  import opened Types
  import opened Constants
  import opened JsStrings
  import opened GeminiService

  const NAME_KEY: string := "savedApiKeyName"
  const VALUE_KEY: string := "savedApiKeyValue"
  const MODEL_KEY: string := "selectedModel"

  const NO_KEY_REPLY: string := "Please add an API key first by tapping the 3 dots menu in the top right."
  const SEND_ERROR_REPLY: string := "Error generating response. Please check your API key or connection."

  /** The text presets behind the suggestion chips other than "create_image". */
  const PRESET_PROMPTS: map<string, string> := map[
    "write_draft" := "Write a professional email about...",
    "code_snippet" := "Write a Python script to...",
    "explain_concept" := "Explain quantum computing like I am 5..."
  ]

  /** `localStorage.getItem(key)`: the stored string, or null. */
  function Lookup(items: map<string, string>, key: string): (r: Option<string>)
    ensures r.Some? <==> key in items
    ensures r.Some? ==> r.value == items[key]
  {
    if key in items then Some(items[key]) else None
  }

  /** Browser local storage, a string-to-string map shared across reloads. */
  class LocalStorage {
    var items: map<string, string>

    constructor (items: map<string, string>)
      ensures this.items == items
    {
      this.items := items;
    }

    /** `localStorage.setItem(key, value)` */
    method SetItem(key: string, value: string)
      modifies this
      ensures items == old(items)[key := value]
    {
      items := items[key := value];
    }
  }

  /** The label the load effect shows for a stored model id: that of the
      first dropdown entry with the id, "Balanced" when none matches. */
  function ResolvedModelName(storedModel: Option<string>): (name: string)
    ensures exists i :: 0 <= i < |MODEL_OPTIONS| && MODEL_OPTIONS[i].labelText == name
    ensures !Truthy(storedModel) ==> name == "Balanced"
  {
    if Truthy(storedModel) && FindOption(MODEL_OPTIONS, storedModel.value).Some? then
      FindOption(MODEL_OPTIONS, storedModel.value).value.labelText
    else
      assert MODEL_OPTIONS[1].labelText == "Balanced";
      "Balanced"
  }

  /** What the load effect makes of `prev` and the stored entries. */
  function LoadSettings(prev: AppSettings, items: map<string, string>): (loaded: AppSettings)
    ensures loaded == prev || Truthy(Lookup(items, VALUE_KEY))
    ensures loaded.apiKeyValue == OrElse(Lookup(items, VALUE_KEY), prev.apiKeyValue)
    ensures prev.selectedModel != "" ==> loaded.selectedModel != ""
  {
    var storedKey := Lookup(items, VALUE_KEY);
    if !Truthy(storedKey) then prev
    else
      var storedModel := Lookup(items, MODEL_KEY);
      prev.(apiKeyName := OrElse(Lookup(items, NAME_KEY), ""),
            apiKeyValue := storedKey.value,
            selectedModel := OrElse(storedModel, BALANCED),
            selectedModelName := ResolvedModelName(storedModel))
  }

  /** `prompts[action] || ''` */
  function PresetPrompt(action: string): (preset: string)
    ensures action in PRESET_PROMPTS ==> preset == PRESET_PROMPTS[action]
    ensures preset != "" <==> action in PRESET_PROMPTS
  {
    OrElse(if action in PRESET_PROMPTS then Some(PRESET_PROMPTS[action]) else None, "")
  }

  /** Every user message is non-blank and is answered by the model message
      right after it. */
  ghost predicate WellFormedTranscript(history: seq<ChatMessage>) {
    forall i :: 0 <= i < |history| && history[i].role == User ==>
      i + 1 < |history| && history[i + 1].role == Model && !IsBlank(history[i].text)
  }

  /** A model message may always be appended. */
  lemma AppendModelMessage(history: seq<ChatMessage>, reply: ChatMessage)
    requires WellFormedTranscript(history) && reply.role == Model
    ensures WellFormedTranscript(history + [reply])
  {
    var h := history + [reply];
    forall i | 0 <= i < |h| && h[i].role == User
      ensures i + 1 < |h| && h[i + 1].role == Model && !IsBlank(h[i].text)
    {
      assert h[i] == history[i];
    }
  }

  /** A non-blank user message followed by its model reply may be appended. */
  lemma AppendExchange(history: seq<ChatMessage>, question: ChatMessage, reply: ChatMessage)
    requires WellFormedTranscript(history)
    requires question.role == User && !IsBlank(question.text) && reply.role == Model
    ensures WellFormedTranscript(history + [question] + [reply])
  {
    var h := history + [question] + [reply];
    forall i | 0 <= i < |h| && h[i].role == User
      ensures i + 1 < |h| && h[i + 1].role == Model && !IsBlank(h[i].text)
    {
      if i < |history| {
        assert h[i] == history[i];
        assert i + 1 < |history| && history[i + 1].role == Model && !IsBlank(history[i].text);
        assert h[i + 1] == history[i + 1];
      } else if i == |history| {
        assert h[i] == question && h[i + 1] == reply;
      }
    }
  }

  /** Two readings of the clock for one message: one for its id, one for its timestamp. */
  datatype Stamp = Stamp(idTime: nat, time: int)

  class App {
    const storage: LocalStorage
    var settings: AppSettings
    var chatHistory: seq<ChatMessage>
    var input: string
    var isLoading: bool
    var viewMode: ViewMode

    /** Between two handlers nothing is loading, the transcript is well
        formed, and the key in use is the stored one (or "" if none is). */
    ghost predicate Valid()
      reads this, storage
    {
      !isLoading &&
      WellFormedTranscript(chatHistory) &&
      settings.apiKeyValue == OrElse(Lookup(storage.items, VALUE_KEY), "")
    }

    /** Mounting the component: default state, then the load effect. */
    constructor (storage: LocalStorage)
      ensures Valid()
      ensures this.storage == storage && storage.items == old(storage.items)
      ensures settings == LoadSettings(DEFAULT_SETTINGS, storage.items)
      ensures chatHistory == [] && input == "" && viewMode == Chat
    {
      this.storage := storage;
      settings := DEFAULT_SETTINGS;
      chatHistory := [];
      input := "";
      isLoading := false;
      viewMode := Chat;
      new;
      LoadFromStorage();
    }

    /** The load effect: resolve the stored model's label through a mutable
        `modelName`, and adopt the stored entries only when a key is stored. */
    method LoadFromStorage()
      modifies this
      ensures settings == LoadSettings(old(settings), storage.items)
      ensures chatHistory == old(chatHistory) && input == old(input)
      ensures isLoading == old(isLoading) && viewMode == old(viewMode)
    {
      var storedName := Lookup(storage.items, NAME_KEY);
      var storedKey := Lookup(storage.items, VALUE_KEY);
      var storedModel := Lookup(storage.items, MODEL_KEY);

      var modelName := "Balanced";
      if Truthy(storedModel) {
        var found := FindOption(MODEL_OPTIONS, storedModel.value);
        if found.Some? {
          modelName := found.value.labelText;
        }
      }

      if Truthy(storedKey) {
        settings := settings.(apiKeyName := OrElse(storedName, ""),
                              apiKeyValue := storedKey.value,
                              selectedModel := OrElse(storedModel, BALANCED),
                              selectedModelName := modelName);
      }
    }

    /** `saveApiKey`: writes both key entries and changes only the key fields. */
    method SaveApiKey(name: string, key: string)
      requires Valid()
      modifies this, storage
      ensures Valid()
      ensures storage.items == old(storage.items)[NAME_KEY := name][VALUE_KEY := key]
      ensures settings == old(settings).(apiKeyName := name, apiKeyValue := key)
      ensures chatHistory == old(chatHistory) && input == old(input) && viewMode == old(viewMode)
    {
      storage.SetItem(NAME_KEY, name);
      storage.SetItem(VALUE_KEY, key);
      settings := settings.(apiKeyName := name, apiKeyValue := key);
    }

    /** `selectModel`: writes the model entry and takes id and label from
        the chosen option; the key fields are untouched. */
    method SelectModel(option: ModelOption)
      requires Valid()
      modifies this, storage
      ensures Valid()
      ensures storage.items == old(storage.items)[MODEL_KEY := option.id]
      ensures settings == old(settings).(selectedModel := option.id, selectedModelName := option.labelText)
      ensures chatHistory == old(chatHistory) && input == old(input) && viewMode == old(viewMode)
    {
      storage.SetItem(MODEL_KEY, option.id);
      settings := settings.(selectedModel := option.id, selectedModelName := option.labelText);
    }

    /** The input box's change handler. */
    method SetInput(text: string)
      requires Valid()
      modifies this
      ensures Valid()
      ensures input == text
      ensures settings == old(settings) && chatHistory == old(chatHistory) && viewMode == old(viewMode)
    {
      input := text;
    }

    /** The exchange `handleSendMessage` runs once the input and the key have
        passed: the user message is appended and the input cleared, the text
        request is made, and the reply (or the fixed error text) follows. */
    method Exchange(before: Stamp, after: Stamp, call: CallOutcome) returns (sent: Option<Request>)
      requires Valid() && !IsBlank(input) && settings.apiKeyValue != ""
      modifies this
      ensures Valid()
      ensures settings == old(settings) && viewMode == old(viewMode) && input == ""
      ensures
        var reply := GenerateTextResponse(settings.apiKeyValue, settings.selectedModel, old(input), call);
        sent == Some(Request(settings.selectedModel, old(input))) &&
        chatHistory == old(chatHistory) + [
          ChatMessage(NumberToString(before.idTime), User, old(input), None, before.time),
          ChatMessage(NumberToString(after.idTime + 1), Model,
                      if reply.result.Success? then reply.result.value else SEND_ERROR_REPLY,
                      None, after.time)]
    {
      var previous := chatHistory;
      var userMsg := ChatMessage(NumberToString(before.idTime), User, input, None, before.time);
      chatHistory := chatHistory + [userMsg];
      input := "";
      isLoading := true;

      var reply := GenerateTextResponse(settings.apiKeyValue, settings.selectedModel, userMsg.text, call);
      sent := reply.sent;
      var text := if reply.result.Success? then reply.result.value else SEND_ERROR_REPLY;
      var modelMsg := ChatMessage(NumberToString(after.idTime + 1), Model, text, None, after.time);
      AppendExchange(previous, userMsg, modelMsg);
      chatHistory := chatHistory + [modelMsg];
      isLoading := false;
    }

    /** `handleSendMessage`, run to completion. `before` are the clock
        readings taken for the first appended message, `after` those for the
        reply; `call` is what the text request did. The untrimmed input is
        what is sent and recorded. */
    method HandleSendMessage(before: Stamp, after: Stamp, call: CallOutcome) returns (sent: Option<Request>)
      requires Valid()
      modifies this
      ensures Valid()
      ensures settings == old(settings) && viewMode == old(viewMode)
      ensures IsBlank(old(input)) ==>
        sent == None && chatHistory == old(chatHistory) && input == old(input)
      ensures !IsBlank(old(input)) && settings.apiKeyValue == "" ==>
        sent == None && input == old(input) &&
        chatHistory == old(chatHistory) +
          [ChatMessage(NumberToString(before.idTime), Model, NO_KEY_REPLY, None, before.time)]
      ensures !IsBlank(old(input)) && settings.apiKeyValue != "" ==>
        var reply := GenerateTextResponse(settings.apiKeyValue, settings.selectedModel, old(input), call);
        sent == Some(Request(settings.selectedModel, old(input))) && input == "" &&
        chatHistory == old(chatHistory) + [
          ChatMessage(NumberToString(before.idTime), User, old(input), None, before.time),
          ChatMessage(NumberToString(after.idTime + 1), Model,
                      if reply.result.Success? then reply.result.value else SEND_ERROR_REPLY,
                      None, after.time)]
    {
      var blank := IsBlank(input);
      if blank {
        return None;
      }
      if settings.apiKeyValue == "" {
        var notice := ChatMessage(NumberToString(before.idTime), Model, NO_KEY_REPLY, None, before.time);
        AppendModelMessage(chatHistory, notice);
        chatHistory := chatHistory + [notice];
        return None;
      }
      sent := Exchange(before, after, call);
    }

    /** `handleSuggestionClick`: "create_image" opens the image view; any
        other action fills the input with its preset, or "" if it has none. */
    method HandleSuggestionClick(action: string)
      requires Valid()
      modifies this
      ensures Valid()
      ensures action == CREATE_IMAGE ==> viewMode == ImageGen && input == old(input)
      ensures action != CREATE_IMAGE ==> viewMode == old(viewMode) && input == PresetPrompt(action)
      ensures settings == old(settings) && chatHistory == old(chatHistory)
    {
      if action == CREATE_IMAGE {
        viewMode := ImageGen;
      } else {
        input := PresetPrompt(action);
      }
    }

    /** The image view's back button. */
    method ReturnToChat()
      requires Valid()
      modifies this
      ensures Valid()
      ensures viewMode == Chat
      ensures settings == old(settings) && chatHistory == old(chatHistory) && input == old(input)
    {
      viewMode := Chat;
    }

    /** The "Clear Chat" menu item. */
    method ClearChat()
      requires Valid()
      modifies this
      ensures Valid()
      ensures chatHistory == []
      ensures settings == old(settings) && input == old(input) && viewMode == old(viewMode)
    {
      chatHistory := [];
    }
  }

  /** Without a stored key the defaults stay, whatever model is stored. */
  lemma LoadWithoutKeyKeepsDefaults(items: map<string, string>)
    requires !Truthy(Lookup(items, VALUE_KEY))
    ensures LoadSettings(DEFAULT_SETTINGS, items) == DEFAULT_SETTINGS
  {
  }

  /** With a stored key: the key and name (or "") are adopted, and the stored
      model id is kept as it is, BALANCED (labelled "Balanced") standing in
      only for a missing or empty one. */
  lemma LoadWithKey(items: map<string, string>)
    requires Truthy(Lookup(items, VALUE_KEY))
    ensures LoadSettings(DEFAULT_SETTINGS, items).apiKeyValue == items[VALUE_KEY]
    ensures LoadSettings(DEFAULT_SETTINGS, items).apiKeyName ==
      if NAME_KEY in items then items[NAME_KEY] else ""
    ensures LoadSettings(DEFAULT_SETTINGS, items).selectedModel ==
      if MODEL_KEY in items && items[MODEL_KEY] != "" then items[MODEL_KEY] else BALANCED
    ensures !Truthy(Lookup(items, MODEL_KEY)) ==>
      LoadSettings(DEFAULT_SETTINGS, items).selectedModelName == "Balanced"
  {
  }

  /** With a stored key, the label is that of the first dropdown entry whose
      id is the stored one. */
  lemma LoadLabelIsFirstMatch(items: map<string, string>, k: nat)
    requires Truthy(Lookup(items, VALUE_KEY))
    requires MODEL_KEY in items
    requires k < |MODEL_OPTIONS| && MODEL_OPTIONS[k].id == items[MODEL_KEY]
    requires forall j :: 0 <= j < k ==> MODEL_OPTIONS[j].id != items[MODEL_KEY]
    ensures LoadSettings(DEFAULT_SETTINGS, items).selectedModel == MODEL_OPTIONS[k].id
    ensures LoadSettings(DEFAULT_SETTINGS, items).selectedModelName == MODEL_OPTIONS[k].labelText
  {
    FindOptionIsFirstMatch(MODEL_OPTIONS, items[MODEL_KEY], k);
  }

  /** With a stored key, an id no entry carries is kept, labelled "Balanced". */
  lemma LoadKeepsUnknownModel(items: map<string, string>)
    requires Truthy(Lookup(items, VALUE_KEY)) && Truthy(Lookup(items, MODEL_KEY))
    requires forall i :: 0 <= i < |MODEL_OPTIONS| ==> MODEL_OPTIONS[i].id != items[MODEL_KEY]
    ensures LoadSettings(DEFAULT_SETTINGS, items).selectedModel == items[MODEL_KEY]
    ensures LoadSettings(DEFAULT_SETTINGS, items).selectedModelName == "Balanced"
  {
  }

  /** So a loaded label need not belong to the loaded id: an unknown id comes
      back labelled "Balanced", though no entry pairs the two. */
  lemma LoadedLabelCanBeOrphaned()
    ensures
      var items := map[VALUE_KEY := "k", MODEL_KEY := "gemini-1.0"];
      var loaded := LoadSettings(DEFAULT_SETTINGS, items);
      loaded.selectedModel == "gemini-1.0" && loaded.selectedModelName == "Balanced" &&
      FindOption(MODEL_OPTIONS, loaded.selectedModel) == None
  {
    var items := map[VALUE_KEY := "k", MODEL_KEY := "gemini-1.0"];
    assert Lookup(items, MODEL_KEY) == Some("gemini-1.0");
    assert "gemini-1.0"[7] != FAST[7];
    assert "gemini-1.0"[7] != ADVANCED[7];
  }

  /** Choosing an entry and reloading (with a key stored) gives back its id,
      and the label of the first entry with that id: choosing "Balanced"
      comes back as "Fast". */
  lemma ReloadAfterSelect(items: map<string, string>, i: nat)
    requires Truthy(Lookup(items, VALUE_KEY))
    requires i < |MODEL_OPTIONS|
    ensures LoadSettings(DEFAULT_SETTINGS, items[MODEL_KEY := MODEL_OPTIONS[i].id]).selectedModel ==
      MODEL_OPTIONS[i].id
    ensures LoadSettings(DEFAULT_SETTINGS, items[MODEL_KEY := MODEL_OPTIONS[i].id]).selectedModelName ==
      if i == 1 then "Fast" else MODEL_OPTIONS[i].labelText
  {
    var stored := items[MODEL_KEY := MODEL_OPTIONS[i].id];
    assert Lookup(stored, VALUE_KEY) == Lookup(items, VALUE_KEY);
    ModelIdsCoincide();
    if i == 2 {
      LoadLabelIsFirstMatch(stored, 2);
    } else {
      LoadLabelIsFirstMatch(stored, 0);
    }
  }

  /** Saving a key and reloading gives back that key and name. */
  lemma ReloadAfterSave(items: map<string, string>, name: string, key: string)
    requires key != ""
    ensures LoadSettings(DEFAULT_SETTINGS, items[NAME_KEY := name][VALUE_KEY := key]).apiKeyName == name
    ensures LoadSettings(DEFAULT_SETTINGS, items[NAME_KEY := name][VALUE_KEY := key]).apiKeyValue == key
    ensures LoadSettings(DEFAULT_SETTINGS, items[NAME_KEY := name][VALUE_KEY := key]).selectedModel ==
      OrElse(Lookup(items, MODEL_KEY), BALANCED)
  {
    var stored := items[NAME_KEY := name][VALUE_KEY := key];
    assert Lookup(stored, MODEL_KEY) == Lookup(items, MODEL_KEY);
  }

  /** A model stored while no key was stored is ignored at load, so the
      session runs on BALANCED, and saving a key keeps it there; the next
      load after the save adopts the stored model. */
  lemma SaveThenReloadSwitchesModel(items: map<string, string>, name: string, key: string)
    requires !Truthy(Lookup(items, VALUE_KEY)) && Truthy(Lookup(items, MODEL_KEY)) && key != ""
    ensures LoadSettings(DEFAULT_SETTINGS, items).selectedModel == BALANCED
    ensures LoadSettings(DEFAULT_SETTINGS, items).(apiKeyName := name, apiKeyValue := key).selectedModel == BALANCED
    ensures LoadSettings(DEFAULT_SETTINGS, items[NAME_KEY := name][VALUE_KEY := key]).selectedModel ==
      items[MODEL_KEY]
  {
    ReloadAfterSave(items, name, key);
  }

  /** Without a stored key, choosing an entry and reloading gives the defaults
      back: "Advanced" comes back as BALANCED, labelled "Balanced". */
  lemma ReloadAfterSelectWithoutKey(items: map<string, string>, i: nat)
    requires !Truthy(Lookup(items, VALUE_KEY))
    requires i < |MODEL_OPTIONS|
    ensures LoadSettings(DEFAULT_SETTINGS, items[MODEL_KEY := MODEL_OPTIONS[i].id]) == DEFAULT_SETTINGS
  {
    var stored := items[MODEL_KEY := MODEL_OPTIONS[i].id];
    assert Lookup(stored, VALUE_KEY) == Lookup(items, VALUE_KEY);
  }

  /** Every suggestion either opens the image view or has a non-empty preset. */
  lemma SuggestionsAllHandled()
    ensures forall i :: 0 <= i < |SUGGESTIONS| ==>
      SUGGESTIONS[i].action == CREATE_IMAGE || PresetPrompt(SUGGESTIONS[i].action) != ""
  {
  }
}
