/**
 * The settings page, `src/pages/Settings/index.jsx`. It loads the model
 * catalogue and the saved settings together, builds the select options from
 * the catalogue, shows the key and URL fields only for providers that need
 * them, shows the retrieval thresholds by retrieval mode, clears the model
 * name when a provider changes, and can reset the form to the defaults.
 *
 * The page's state is `SettingsState`; every handler of `SettingsPage` is
 * given by a pure transition on it, and the lemmas are about those.
 */
module SettingsPage {
  import opened Wrappers
  import opened JsValue
  import opened ApiClient

  const EmbeddingGroup: string := "embedding_models"
  const LlmGroup: string := "llm_models"
  const SuccessCode: int := 200

  const DefaultEmbeddingProvider: string := "huggingface"
  const DefaultLlmProvider: string := "deepseek"
  const VectorMode: string := "vector"
  const KeywordMode: string := "keyword"
  const HybridMode: string := "hybrid"

  const LoadFailedPrefix: string := "加载设置失败: "
  const SavedMessage: string := "保存设置成功"
  const SaveRejectedMessage: string := "保存失败"
  const SaveFailedPrefix: string := "保存设置失败: "
  const ResetMessage: string := "已重置为默认设置，请点击保存以应用更改"

  /** An entry of a select's `options`. */
  datatype SelectOption = SelectOption(caption: Value, value: Value)

  /** A toast. */
  datatype Toast = Success(text: string) | Failure(text: string) | Notice(text: string)

  /** The fields whose `hidden` prop the page computes. */
  datatype Field =
    | EmbeddingApiKey | EmbeddingBaseUrl | LlmApiKey | LlmBaseUrl
    | VectorThreshold | KeywordThreshold | VectorWeight

  /**
   * The page's state: the catalogue (`null` until loaded), the form's field
   * values, the three values that drive what is shown, and the two flags.
   */
  datatype SettingsState = SettingsState(
    availableModels: Value,
    fields: map<string, Value>,
    embeddingProvider: Value,
    llmProvider: Value,
    retrievalMode: Value,
    loading: bool,
    saving: bool)

  const Initial: SettingsState :=
    SettingsState(Null, map[], Str(DefaultEmbeddingProvider), Str(DefaultLlmProvider), Str(VectorMode), false, false)

  // ---------------------------------------------------------------------------
  // Options from the catalogue

  /**
   * `Object.entries(catalogue)` as the host lists an object's own properties:
   * each exactly once, with its value.
   */
  predicate ListsEntries(catalogue: Value, entries: seq<(string, Value)>) {
    catalogue.Obj? ==>
      && (forall k :: 0 <= k < |entries| ==> entries[k].0 in catalogue.props && catalogue.props[entries[k].0] == entries[k].1)
      && (forall key :: key in catalogue.props ==> exists k :: 0 <= k < |entries| && entries[k].0 == key)
      && (forall j, k :: 0 <= j < k < |entries| ==> entries[j].0 != entries[k].0)
  }

  /**
   * `getEmbeddingProviderOptions()` / `getLlmProviderOptions()`: one option
   * per catalogue entry, labelled with its `name` and valued by its key; no
   * options while the group is missing.
   */
  function ProviderOptions(available: Value, group: string, entries: seq<(string, Value)>): (r: seq<SelectOption>)
    requires ListsEntries(Get(available, group), entries)
    ensures !Truthy(Get(available, group)) ==> r == []
    ensures Truthy(Get(available, group)) ==> |r| == |entries|
    ensures Truthy(Get(available, group)) ==>
      forall k :: 0 <= k < |r| ==> r[k] == SelectOption(Get(entries[k].1, "name"), Str(entries[k].0))
  {
    if !Truthy(Get(available, group)) then []
    else seq(|entries|, k requires 0 <= k < |entries| => SelectOption(Get(entries[k].1, "name"), Str(entries[k].0)))
  }

  /**
   * A loaded catalogue group gives exactly one option per provider: the
   * options' values are the providers' keys, each once, and each option is
   * labelled with its own provider's name.
   */
  lemma ProviderOptionsCoverCatalogue(available: Value, group: string, entries: seq<(string, Value)>)
    requires Get(available, group).Obj?
    requires ListsEntries(Get(available, group), entries)
    ensures var options := ProviderOptions(available, group, entries);
      var providers := Get(available, group).props;
      && (forall key :: key in providers <==> exists k :: 0 <= k < |options| && options[k].value == Str(key))
      && (forall j, k :: 0 <= j < k < |options| ==> options[j].value != options[k].value)
      && (forall k, key :: 0 <= k < |options| && options[k].value == Str(key) ==> options[k].caption == Get(providers[key], "name"))
  {
    var options := ProviderOptions(available, group, entries);
    var providers := Get(available, group).props;
    forall key | key in providers
      ensures exists k :: 0 <= k < |options| && options[k].value == Str(key)
    {
      var k :| 0 <= k < |entries| && entries[k].0 == key;
      assert options[k].value == Str(key);
    }
  }

  /** `availableModels?.<group>?.[provider]`: the catalogue entry of a provider, looked up by its name as a string. */
  function ProviderInfo(available: Value, group: string, provider: Value): (info: Value)
    ensures info != Undefined ==> Get(available, group).Obj? && ToJsString(provider) in Get(available, group).props
  {
    Get(Get(available, group), ToJsString(provider))
  }

  /**
   * The models the option builders map over: none for an unknown provider,
   * the `models` array of a known one, and `None` when `models` is not an
   * array, where `.map` throws while rendering.
   */
  function ModelsOf(available: Value, group: string, provider: Value): (r: Option<seq<Value>>)
    ensures !Truthy(ProviderInfo(available, group, provider)) ==> r == Some([])
    ensures Truthy(ProviderInfo(available, group, provider)) && Get(ProviderInfo(available, group, provider), "models").Arr? ==>
      r == Some(Get(ProviderInfo(available, group, provider), "models").items)
    ensures r.None? <==> Truthy(ProviderInfo(available, group, provider)) && !Get(ProviderInfo(available, group, provider), "models").Arr?
  {
    var info := ProviderInfo(available, group, provider);
    if !Truthy(info) then Some([])
    else match Get(info, "models")
      case Arr(models) => Some(models)
      case _ => None
  }

  /** An embedding model's option: valued by its `path`, else its `name`; the dimension is appended to the label only when present. */
  function EmbeddingModelOption(model: Value): (o: SelectOption)
    ensures o.value == (if Truthy(Get(model, "path")) then Get(model, "path") else Get(model, "name"))
    ensures Truthy(Get(model, "dimension")) ==>
      o.caption == Str(ToJsString(Get(model, "name")) + " (维度: " + ToJsString(Get(model, "dimension")) + ")")
    ensures !Truthy(Get(model, "dimension")) ==> o.caption == Str(ToJsString(Get(model, "name")))
  {
    var name := ToJsString(Get(model, "name"));
    var dimension := Get(model, "dimension");
    var caption := if Truthy(dimension) then name + " (维度: " + ToJsString(dimension) + ")" else name;
    SelectOption(Str(caption), Or(Get(model, "path"), Get(model, "name")))
  }

  /** An LLM's option: labelled and valued by its `name`. */
  function LlmModelOption(model: Value): (o: SelectOption)
    ensures o.caption == o.value == Get(model, "name")
  {
    SelectOption(Get(model, "name"), Get(model, "name"))
  }

  /** `getEmbeddingModelOptions()`: one option per model of the chosen provider, in order. */
  function EmbeddingModelOptions(available: Value, provider: Value): (r: Option<seq<SelectOption>>)
    ensures r.Some? <==> ModelsOf(available, EmbeddingGroup, provider).Some?
    ensures r.Some? ==> var models := ModelsOf(available, EmbeddingGroup, provider).value;
      |r.value| == |models| && forall k :: 0 <= k < |models| ==> r.value[k] == EmbeddingModelOption(models[k])
  {
    match ModelsOf(available, EmbeddingGroup, provider)
    case None => None
    case Some(models) => Some(seq(|models|, k requires 0 <= k < |models| => EmbeddingModelOption(models[k])))
  }

  /** `getLlmModelOptions()`: one option per model of the chosen provider, in order. */
  function LlmModelOptions(available: Value, provider: Value): (r: Option<seq<SelectOption>>)
    ensures r.Some? <==> ModelsOf(available, LlmGroup, provider).Some?
    ensures r.Some? ==> var models := ModelsOf(available, LlmGroup, provider).value;
      |r.value| == |models| && forall k :: 0 <= k < |models| ==> r.value[k] == LlmModelOption(models[k])
  {
    match ModelsOf(available, LlmGroup, provider)
    case None => None
    case Some(models) => Some(seq(|models|, k requires 0 <= k < |models| => LlmModelOption(models[k])))
  }

  /** `availableModels?.<group>?.[provider]?.<flag> || false`. */
  function RequiresFlag(available: Value, group: string, provider: Value, flag: string): (r: Value)
    ensures Truthy(r) <==> Truthy(Get(ProviderInfo(available, group, provider), flag))
    ensures Truthy(r) ==> r == Get(ProviderInfo(available, group, provider), flag)
    ensures !Truthy(r) ==> r == Bool(false)
  {
    Or(Get(ProviderInfo(available, group, provider), flag), Bool(false))
  }

  /** A provider the catalogue does not list needs no key and no URL, and offers no models. */
  lemma UnknownProviderNeedsNothing(available: Value, group: string, provider: Value)
    requires !(Get(available, group).Obj? && ToJsString(provider) in Get(available, group).props)
    ensures RequiresFlag(available, group, provider, "requires_api_key") == Bool(false)
    ensures RequiresFlag(available, group, provider, "requires_base_url") == Bool(false)
    ensures ModelsOf(available, group, provider) == Some([])
  {
  }

  // ---------------------------------------------------------------------------
  // Which fields are hidden

  /** The `hidden` prop of each conditional field. */
  predicate Hidden(s: SettingsState, f: Field) {
    match f
    case EmbeddingApiKey => !Truthy(RequiresFlag(s.availableModels, EmbeddingGroup, s.embeddingProvider, "requires_api_key"))
    case EmbeddingBaseUrl => !Truthy(RequiresFlag(s.availableModels, EmbeddingGroup, s.embeddingProvider, "requires_base_url"))
    case LlmApiKey => !Truthy(RequiresFlag(s.availableModels, LlmGroup, s.llmProvider, "requires_api_key"))
    case LlmBaseUrl => !Truthy(RequiresFlag(s.availableModels, LlmGroup, s.llmProvider, "requires_base_url"))
    case VectorThreshold => !(StrictEquals(s.retrievalMode, Str(VectorMode)) || StrictEquals(s.retrievalMode, Str(HybridMode)))
    case KeywordThreshold => !(StrictEquals(s.retrievalMode, Str(KeywordMode)) || StrictEquals(s.retrievalMode, Str(HybridMode)))
    case VectorWeight => !StrictEquals(s.retrievalMode, Str(HybridMode))
  }

  /**
   * The retrieval fields by mode: the vector threshold for vector and hybrid
   * retrieval, the keyword threshold for keyword and hybrid retrieval, and
   * the weight for hybrid retrieval only; every mode the select offers shows
   * at least one threshold.
   */
  lemma RetrievalFieldsByMode(s: SettingsState)
    ensures !Hidden(s, VectorThreshold) <==> s.retrievalMode == Str(VectorMode) || s.retrievalMode == Str(HybridMode)
    ensures !Hidden(s, KeywordThreshold) <==> s.retrievalMode == Str(KeywordMode) || s.retrievalMode == Str(HybridMode)
    ensures !Hidden(s, VectorWeight) <==> s.retrievalMode == Str(HybridMode)
    ensures !Hidden(s, VectorWeight) ==> !Hidden(s, VectorThreshold) && !Hidden(s, KeywordThreshold)
    ensures s.retrievalMode in {Str(VectorMode), Str(KeywordMode), Str(HybridMode)} ==>
      !Hidden(s, VectorThreshold) || !Hidden(s, KeywordThreshold)
  {
  }

  /** The key and URL fields show exactly when the chosen provider's catalogue entry asks for them. */
  lemma CredentialFieldsFollowCatalogue(s: SettingsState)
    ensures !Hidden(s, EmbeddingApiKey) <==> Truthy(Get(ProviderInfo(s.availableModels, EmbeddingGroup, s.embeddingProvider), "requires_api_key"))
    ensures !Hidden(s, LlmBaseUrl) <==> Truthy(Get(ProviderInfo(s.availableModels, LlmGroup, s.llmProvider), "requires_base_url"))
    ensures s.availableModels == Null ==>
      Hidden(s, EmbeddingApiKey) && Hidden(s, EmbeddingBaseUrl) && Hidden(s, LlmApiKey) && Hidden(s, LlmBaseUrl)
  {
  }

  // ---------------------------------------------------------------------------
  // Transitions

  /** `form.setFieldsValue(values)`: the given fields take the given values, the rest keep theirs. */
  function SetFieldsValue(fields: map<string, Value>, values: Value): (r: map<string, Value>)
    ensures r.Keys == fields.Keys + Props(values).Keys
    ensures forall key :: key in Props(values) ==> r[key] == Props(values)[key]
    ensures forall key :: key in fields && key !in Props(values) ==> r[key] == fields[key]
  {
    fields + Props(values)
  }

  /** A reply body whose `code` is strictly 200. */
  predicate Accepted(body: Value) {
    StrictEquals(Get(body, "code"), Num(SuccessCode))
  }

  /**
   * The mount-time load: both requests run together and a rejection of either
   * ends in the catch (the catalogue's rejection is reported when both
   * reject). An accepted catalogue is stored; accepted settings fill the form
   * and set the three drivers, defaulting missing ones.
   */
  function AfterLoad(s: SettingsState, models: Settled, settings: Settled): (t: SettingsState)
    ensures !t.loading && t.saving == s.saving
    ensures models.Rejected? || settings.Rejected? ==> t == s.(loading := false)
    ensures models.Resolved? && settings.Resolved? ==>
      && t.availableModels == (if Accepted(models.data) then Get(models.data, "data") else s.availableModels)
    ensures models.Resolved? && settings.Resolved? && !Accepted(settings.data) ==>
      && t.fields == s.fields && t.embeddingProvider == s.embeddingProvider
      && t.llmProvider == s.llmProvider && t.retrievalMode == s.retrievalMode
    ensures models.Resolved? && settings.Resolved? && Accepted(settings.data) ==>
      var data := Get(settings.data, "data");
      && t.fields == SetFieldsValue(s.fields, data)
      && t.embeddingProvider == Or(Get(data, "embedding_provider"), Str(DefaultEmbeddingProvider))
      && t.llmProvider == Or(Get(data, "llm_provider"), Str(DefaultLlmProvider))
      && t.retrievalMode == Or(Get(data, "retrieval_mode"), Str(VectorMode))
  {
    if models.Rejected? || settings.Rejected? then s.(loading := false)
    else
      var withModels := if Accepted(models.data) then s.(availableModels := Get(models.data, "data")) else s;
      var loaded :=
        if Accepted(settings.data) then
          var data := Get(settings.data, "data");
          withModels.(
            fields := SetFieldsValue(withModels.fields, data),
            embeddingProvider := Or(Get(data, "embedding_provider"), Str(DefaultEmbeddingProvider)),
            llmProvider := Or(Get(data, "llm_provider"), Str(DefaultLlmProvider)),
            retrievalMode := Or(Get(data, "retrieval_mode"), Str(VectorMode)))
        else withModels;
      loaded.(loading := false)
  }

  /** The toast the load shows: only a rejection shows one. */
  function LoadToast(models: Settled, settings: Settled): (r: Option<Toast>)
    ensures r.Some? <==> models.Rejected? || settings.Rejected?
    ensures models.Rejected? ==> r == Some(Failure(LoadFailedPrefix + models.message))
    ensures models.Resolved? && settings.Rejected? ==> r == Some(Failure(LoadFailedPrefix + settings.message))
  {
    if models.Rejected? then Some(Failure(LoadFailedPrefix + models.message))
    else if settings.Rejected? then Some(Failure(LoadFailedPrefix + settings.message))
    else None
  }

  /**
   * The defaults `handleReset` writes into the form. The four fractional
   * defaults (temperature, both thresholds, the weight) are not numbers of
   * this model and are left out of the map.
   */
  const ResetFields: map<string, Value> := map[
    "embedding_provider" := Str(DefaultEmbeddingProvider),
    "embedding_model_name" := Str("sentence-transformers/all-MiniLM-L6-v2"),
    "embedding_api_key" := Str(""),
    "embedding_base_url" := Str(""),
    "llm_provider" := Str(DefaultLlmProvider),
    "llm_model_name" := Str("deepseek-chat"),
    "llm_api_key" := Str(""),
    "llm_base_url" := Str("https://api.deepseek.com"),
    "chat_system_prompt" := Str("你是一个专业的AI助手。请友好、准确地回答用户的问题。"),
    "rag_system_prompt" := Str("你是一个专业的AI助手。请基于文档内容回答问题。"),
    "rag_query_prompt" := Str("文档内容：\n{context}\n\n问题：{question}\n\n请基于文档内容回答问题。如果文档中没有相关信息，请明确说明。"),
    "retrieval_mode" := Str(VectorMode),
    "top_k" := Num(5)]

  /** `handleReset()`: the defaults go into the form and the three drivers go back to theirs. */
  function AfterReset(s: SettingsState): (t: SettingsState)
    ensures t.fields == SetFieldsValue(s.fields, Obj(ResetFields))
    ensures t.embeddingProvider == Str(DefaultEmbeddingProvider) && t.llmProvider == Str(DefaultLlmProvider)
    ensures t.retrievalMode == Str(VectorMode)
    ensures t.availableModels == s.availableModels && t.loading == s.loading && t.saving == s.saving
  {
    s.(fields := SetFieldsValue(s.fields, Obj(ResetFields)),
       embeddingProvider := Str(DefaultEmbeddingProvider),
       llmProvider := Str(DefaultLlmProvider),
       retrievalMode := Str(VectorMode))
  }

  /** Resetting twice is resetting once. */
  lemma ResetIdempotent(s: SettingsState)
    ensures AfterReset(AfterReset(s)) == AfterReset(s)
  {
    var once := AfterReset(s);
    assert SetFieldsValue(once.fields, Obj(ResetFields)) == once.fields;
  }

  /**
   * Loaded settings that name no provider and no mode leave the page's
   * drivers where a reset puts them, and the reset's form agrees with them.
   */
  lemma LoadDefaultsMatchReset(s: SettingsState, models: Settled, settings: Settled)
    requires models.Resolved? && settings.Resolved? && Accepted(settings.data)
    requires var data := Get(settings.data, "data");
      && !Truthy(Get(data, "embedding_provider")) && !Truthy(Get(data, "llm_provider"))
      && !Truthy(Get(data, "retrieval_mode"))
    ensures var loaded := AfterLoad(s, models, settings);
      var reset := AfterReset(s);
      && loaded.embeddingProvider == reset.embeddingProvider
      && loaded.llmProvider == reset.llmProvider
      && loaded.retrievalMode == reset.retrievalMode
  {
  }

  /** After a reset the form's provider and mode fields hold the values that drive the page. */
  lemma ResetFormAgreesWithDrivers(s: SettingsState)
    ensures var reset := AfterReset(s);
      && "embedding_provider" in reset.fields && reset.fields["embedding_provider"] == reset.embeddingProvider
      && "llm_provider" in reset.fields && reset.fields["llm_provider"] == reset.llmProvider
      && "retrieval_mode" in reset.fields && reset.fields["retrieval_mode"] == reset.retrievalMode
  {
    assert ResetFields["embedding_provider"] == Str(DefaultEmbeddingProvider);
    assert ResetFields["llm_provider"] == Str(DefaultLlmProvider);
    assert ResetFields["retrieval_mode"] == Str(VectorMode);
  }

  /** The embedding provider select's `onChange`: the provider changes and the chosen model is cleared. */
  function AfterEmbeddingProviderChange(s: SettingsState, value: Value): (t: SettingsState)
    ensures t.embeddingProvider == value && "embedding_model_name" in t.fields && t.fields["embedding_model_name"] == Str("")
    ensures forall key :: key in s.fields && key != "embedding_model_name" ==> key in t.fields && t.fields[key] == s.fields[key]
    ensures t.fields.Keys == s.fields.Keys + {"embedding_model_name"}
    ensures t.llmProvider == s.llmProvider && t.retrievalMode == s.retrievalMode
    ensures t.availableModels == s.availableModels && t.loading == s.loading && t.saving == s.saving
  {
    s.(embeddingProvider := value, fields := s.fields["embedding_model_name" := Str("")])
  }

  /** The LLM provider select's `onChange`: the provider changes and the chosen model is cleared. */
  function AfterLlmProviderChange(s: SettingsState, value: Value): (t: SettingsState)
    ensures t.llmProvider == value && "llm_model_name" in t.fields && t.fields["llm_model_name"] == Str("")
    ensures forall key :: key in s.fields && key != "llm_model_name" ==> key in t.fields && t.fields[key] == s.fields[key]
    ensures t.fields.Keys == s.fields.Keys + {"llm_model_name"}
    ensures t.embeddingProvider == s.embeddingProvider && t.retrievalMode == s.retrievalMode
    ensures t.availableModels == s.availableModels && t.loading == s.loading && t.saving == s.saving
  {
    s.(llmProvider := value, fields := s.fields["llm_model_name" := Str("")])
  }

  /**
   * The two provider changes are independent: each clears only its own model
   * field, so changing both, in either order, gives the same page.
   */
  lemma ProviderChangesCommute(s: SettingsState, embedding: Value, llm: Value)
    ensures AfterLlmProviderChange(AfterEmbeddingProviderChange(s, embedding), llm)
         == AfterEmbeddingProviderChange(AfterLlmProviderChange(s, llm), embedding)
  {
    assert s.fields["embedding_model_name" := Str("")]["llm_model_name" := Str("")]
        == s.fields["llm_model_name" := Str("")]["embedding_model_name" := Str("")];
  }

  /** The toast `handleSave` shows for the update's outcome. */
  function SaveToast(reply: Settled): (r: Toast)
    ensures r.Success? <==> reply.Resolved? && Accepted(reply.data)
    ensures r.Success? ==> r.text == SavedMessage
    ensures reply.Resolved? && !Accepted(reply.data) ==> r == Failure(MessageOr(Get(reply.data, "message"), SaveRejectedMessage))
    ensures reply.Rejected? ==> r == Failure(SaveFailedPrefix + reply.message)
  {
    match reply
    case Rejected(message) => Failure(SaveFailedPrefix + message)
    case Resolved(body) =>
      if Accepted(body) then Success(SavedMessage) else Failure(MessageOr(Get(body, "message"), SaveRejectedMessage))
  }

  // ---------------------------------------------------------------------------
  // The page

  class Page {
    var availableModels: Value
    var fields: map<string, Value>
    var embeddingProvider: Value
    var llmProvider: Value
    var retrievalMode: Value
    var loading: bool
    var saving: bool

    function State(): SettingsState
      reads this
    {
      SettingsState(availableModels, fields, embeddingProvider, llmProvider, retrievalMode, loading, saving)
    }

    constructor ()
      ensures State() == Initial
    {
      availableModels := Null;
      fields := map[];
      embeddingProvider := Str(DefaultEmbeddingProvider);
      llmProvider := Str(DefaultLlmProvider);
      retrievalMode := Str(VectorMode);
      loading := false;
      saving := false;
    }

    /** The mount effect, with the two replies it awaits. */
    method Load(models: Settled, settings: Settled) returns (toast: Option<Toast>)
      modifies this
      ensures State() == AfterLoad(old(State()), models, settings)
      ensures toast == LoadToast(models, settings)
    {
      ghost var before := State();
      loading := true;
      if models.Rejected? || settings.Rejected? {
        toast := LoadToast(models, settings);
        loading := false;
        assert State() == before.(loading := false);
        return;
      }
      if Accepted(models.data) {
        availableModels := Get(models.data, "data");
      }
      if Accepted(settings.data) {
        ApplySettings(Get(settings.data, "data"));
      }
      toast := None;
      loading := false;
      assert State() == AfterLoad(before, models, settings);
    }

    /** The accepted settings go into the form, and the three drivers follow them, with their defaults. */
    method ApplySettings(data: Value)
      modifies this
      ensures fields == SetFieldsValue(old(fields), data)
      ensures embeddingProvider == Or(Get(data, "embedding_provider"), Str(DefaultEmbeddingProvider))
      ensures llmProvider == Or(Get(data, "llm_provider"), Str(DefaultLlmProvider))
      ensures retrievalMode == Or(Get(data, "retrieval_mode"), Str(VectorMode))
      ensures availableModels == old(availableModels) && loading == old(loading) && saving == old(saving)
    {
      fields := SetFieldsValue(fields, data);
      embeddingProvider := Or(Get(data, "embedding_provider"), Str(DefaultEmbeddingProvider));
      llmProvider := Or(Get(data, "llm_provider"), Str(DefaultLlmProvider));
      retrievalMode := Or(Get(data, "retrieval_mode"), Str(VectorMode));
    }

    /** `handleSave(values)`: the values are sent as they are; only the toast tells the outcome. */
    method HandleSave(values: Value, reply: Settled) returns (sent: Value, toast: Toast)
      modifies this
      ensures sent == values && toast == SaveToast(reply)
      ensures State() == old(State()).(saving := false)
    {
      saving := true;
      sent := values;
      toast := SaveToast(reply);
      saving := false;
    }

    /** `handleReset()`. */
    method HandleReset() returns (toast: Toast)
      modifies this
      ensures State() == AfterReset(old(State())) && toast == Notice(ResetMessage)
    {
      fields := SetFieldsValue(fields, Obj(ResetFields));
      embeddingProvider := Str(DefaultEmbeddingProvider);
      llmProvider := Str(DefaultLlmProvider);
      retrievalMode := Str(VectorMode);
      toast := Notice(ResetMessage);
    }

    /** `handleEmbeddingProviderChange(value)`. */
    method HandleEmbeddingProviderChange(value: Value)
      modifies this
      ensures State() == AfterEmbeddingProviderChange(old(State()), value)
    {
      embeddingProvider := value;
      fields := fields["embedding_model_name" := Str("")];
    }

    /** `handleLlmProviderChange(value)`. */
    method HandleLlmProviderChange(value: Value)
      modifies this
      ensures State() == AfterLlmProviderChange(old(State()), value)
    {
      llmProvider := value;
      fields := fields["llm_model_name" := Str("")];
    }

    /** The retrieval-mode select's `onChange`. */
    method SetRetrievalMode(value: Value)
      modifies this
      ensures State() == old(State()).(retrievalMode := value)
    {
      retrievalMode := value;
    }
  }
}
