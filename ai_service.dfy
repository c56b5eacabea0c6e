/**
 * The AI model service: the registry of vendor providers built from the API-key settings,
 * provider lookup, the conversion of provider failures into an `Error:` chunk or reply, model
 * configuration checks, and the merged two-model stream of `compare_models`. The providers'
 * own output is an input here (a sequence of chunks and an optional failure text).
 */
module AIService {
  import opened Wrappers
  import opened Entities
  import Text
  import Providers
  import StreamMerge

  /** The three vendor provider implementations. */
  datatype ProviderKind = OpenAI | Google | Anthropic

  /** A provider instance holds its kind and the API key it was built with. */
  datatype Provider = Provider(kind: ProviderKind, apiKey: string)

  /** `PROVIDER_CLASSES`, in declaration order. */
  const PROVIDER_NAMES: seq<string> := ["openai", "google", "anthropic"]

  function KindOf(name: string): ProviderKind
  {
    if name == "openai" then OpenAI else if name == "google" then Google else Anthropic
  }

  /** The settings attribute read for a provider: its name upper-cased, then `_API_KEY`. */
  function ApiKeySetting(name: string): (key: string)
    ensures |key| == |name| + 8 && key[|name|..] == "_API_KEY"
    ensures forall i :: 0 <= i < |name| ==> key[i] == Text.UpperChar(name[i])
  {
    Text.Upper(name) + "_API_KEY"
  }

  /** A provider's key is usable when the setting exists and is truthy (non-empty). */
  predicate HasKey(settings: map<string, string>, name: string)
  {
    ApiKeySetting(name) in settings && settings[ApiKeySetting(name)] != ""
  }

  /** The registry the initialisation loop builds from the first `n` names. */
  function Registry(settings: map<string, string>, names: seq<string>): (reg: map<string, Provider>)
    ensures forall name :: name in reg <==> name in names && HasKey(settings, name)
  {
    if names == [] then map[]
    else
      var last := names[|names| - 1];
      var prev := Registry(settings, names[..|names| - 1]);
      assert forall x :: x in names <==> x in names[..|names| - 1] || x == last;
      if HasKey(settings, last) then prev[last := Provider(KindOf(last), settings[ApiKeySetting(last)])] else prev
  }

  /** Every registered provider is of the kind its name says and holds the configured key. */
  lemma {:induction false} RegistryEntries(settings: map<string, string>, names: seq<string>, name: string)
    requires name in Registry(settings, names)
    ensures Registry(settings, names)[name] == Provider(KindOf(name), settings[ApiKeySetting(name)])
    decreases |names|
  {
    var last := names[|names| - 1];
    if name != last || !HasKey(settings, last) {
      RegistryEntries(settings, names[..|names| - 1], name);
    }
  }

  /** `_initialize_providers`: one pass over the provider names, registering those with a key. */
  method InitializeProviders(settings: map<string, string>) returns (providers: map<string, Provider>)
    ensures providers == Registry(settings, PROVIDER_NAMES)
    ensures forall name :: name in providers <==> name in PROVIDER_NAMES && HasKey(settings, name)
  {
    providers := map[];
    for i := 0 to |PROVIDER_NAMES|
      invariant providers == Registry(settings, PROVIDER_NAMES[..i])
    {
      var name := PROVIDER_NAMES[i];
      assert PROVIDER_NAMES[..i + 1][..i] == PROVIDER_NAMES[..i];
      var key := ApiKeySetting(name);
      if key in settings && settings[key] != "" {
        providers := providers[name := Provider(KindOf(name), settings[key])];
      }
    }
    assert PROVIDER_NAMES[..|PROVIDER_NAMES|] == PROVIDER_NAMES;
  }

  /** Whether a provider implementation defines every abstract method of the provider base class. */
  predicate Concrete(kind: ProviderKind)
  {
    kind == OpenAI
  }

  /**
   * `_initialize_providers` as the classes are written: the Google and Anthropic classes leave
   * `get_completion` abstract, so building one raises `TypeError` and the whole service fails.
   */
  function InitializeAsWritten(settings: map<string, string>, names: seq<string>): (r: Result<map<string, Provider>>)
    ensures r.Ok? ==> r.value == Registry(settings, names)
  {
    if names == [] then Ok(map[])
    else
      var last := names[|names| - 1];
      var prev := InitializeAsWritten(settings, names[..|names| - 1]);
      if prev.Err? then prev
      else if !HasKey(settings, last) then prev
      else if !Concrete(KindOf(last)) then Err("TypeError: Can't instantiate abstract class")
      else Ok(prev.value[last := Provider(KindOf(last), settings[ApiKeySetting(last)])])
  }

  /** With a Google or Anthropic key configured, the service cannot be constructed at all. */
  lemma ConfiguredGoogleKeyBreaksService(settings: map<string, string>)
    requires "GOOGLE_API_KEY" in settings && settings["GOOGLE_API_KEY"] != ""
    ensures InitializeAsWritten(settings, PROVIDER_NAMES).Err?
    ensures "google" in Registry(settings, PROVIDER_NAMES)
  {
    assert ApiKeySetting("google") == "GOOGLE_API_KEY";
    assert PROVIDER_NAMES[..2][..1] == ["openai"];
    assert PROVIDER_NAMES[..2] == ["openai", "google"];
    assert InitializeAsWritten(settings, PROVIDER_NAMES[..2]).Err?;
  }

  /** The configured models of one provider kind. */
  function Models(kind: ProviderKind): map<string, Providers.ModelInfo>
  {
    match kind
    case OpenAI => Providers.OPENAI_MODELS
    case Google => Providers.GOOGLE_MODELS
    case Anthropic => Providers.ANTHROPIC_MODELS
  }

  /** The outcome of `validate_model_configuration`. */
  datatype Validation = Validation(isValid: bool, modelInfo: Option<Providers.ModelInfo>, providerAvailable: bool)

  /** The service object: the providers registered when it was built. */
  class AIModelService {
    var providers: map<string, Provider>

    constructor(settings: map<string, string>)
      ensures providers == Registry(settings, PROVIDER_NAMES)
    {
      var registered := InitializeProviders(settings);
      providers := registered;
    }

    /** `get_provider`: the registered provider, or the `ValueError` for an unregistered name. */
    function GetProvider(name: string): (r: Result<Provider>)
      reads this
      ensures r.Ok? <==> name in providers
      ensures r.Ok? ==> r.value == providers[name]
      ensures r.Err? ==> r.error == "Provider " + name + " not initialized"
    {
      if name in providers then Ok(providers[name]) else Err("Provider " + name + " not initialized")
    }

    /**
     * `stream_completion`: an unregistered provider raises before anything is yielded; otherwise
     * the provider's chunks pass through and a provider failure becomes one final `Error:` chunk.
     */
    function StreamCompletion(model: AIModel, chunks: seq<string>, failure: Option<string>): (r: Result<seq<string>>)
      reads this
      ensures r.Err? <==> model.provider !in providers
      ensures r.Err? ==> r == Err(GetProvider(model.provider).error)
      ensures r.Ok? ==> |r.value| == |chunks| + (if failure.Some? then 1 else 0) && r.value[..|chunks|] == chunks
      ensures r.Ok? && failure.Some? ==> r.value[|chunks|] == ErrorText(failure.value)
    {
      var p := GetProvider(model.provider);
      if p.Err? then Err(p.error)
      else if failure.Some? then Ok(chunks + [ErrorText(failure.value)])
      else Ok(chunks)
    }

    /** `get_completion`: the provider's reply, or its failure as `Error:` text; only an unregistered provider raises. */
    function GetCompletion(model: AIModel, reply: Result<string>): (r: Result<string>)
      reads this
      ensures r.Err? <==> model.provider !in providers
      ensures r.Ok? && reply.Ok? ==> r.value == reply.value
      ensures r.Ok? && reply.Err? ==> r.value == ErrorText(reply.error)
    {
      var p := GetProvider(model.provider);
      if p.Err? then Err(p.error)
      else if reply.Ok? then Ok(reply.value)
      else Ok(ErrorText(reply.error))
    }

    /**
     * `validate_model_configuration`: raises for an unregistered provider; otherwise reports
     * whether the provider knows the model code and its information, and the provider as
     * available, which it always is once the lookup succeeded.
     */
    function ValidateModelConfiguration(model: AIModel): (r: Result<Validation>)
      reads this
      ensures r.Err? <==> model.provider !in providers
      ensures r.Ok? ==> r.value.providerAvailable
      ensures r.Ok? ==> (r.value.isValid <==> model.modelCode in Models(providers[model.provider].kind))
      ensures r.Ok? ==> (r.value.isValid <==> r.value.modelInfo.Some?)
      ensures r.Ok? && r.value.isValid ==> r.value.modelInfo.value == Models(providers[model.provider].kind)[model.modelCode]
    {
      var p := GetProvider(model.provider);
      if p.Err? then Err(p.error)
      else
        var table := Models(p.value.kind);
        Ok(Validation(Providers.ValidateModel(table, model.modelCode),
                      Providers.GetModelInfo(table, model.modelCode),
                      model.provider in providers))
    }
  }

  /** The text a provider failure is turned into. */
  function ErrorText(msg: string): (t: string)
    ensures Text.StartsWith(t, "Error: ") && t[7..] == msg
  {
    "Error: " + msg
  }

  // ---------------------------------------------------------------- compare_models

  /** An item of the merged comparison stream: a labelled chunk, or a producer's failure. */
  datatype LabelledItem = Chunk(tag: string, chunk: string, modelId: Id) | ProducerError(tag: string, error: string)

  /** What one `queue_stream` producer puts before its end marker, given what `stream_completion` did. */
  function Produced(side: string, modelId: Id, outcome: Result<seq<string>>): (items: seq<LabelledItem>)
    ensures outcome.Err? ==> items == [ProducerError(side, outcome.error)]
    ensures outcome.Ok? ==> |items| == |outcome.value|
    ensures forall i :: 0 <= i < |items| ==> items[i].tag == side
    ensures forall i :: 0 <= i < |items| && items[i].Chunk? ==> items[i].modelId == modelId && outcome.Ok? && items[i].chunk == outcome.value[i]
  {
    if outcome.Err? then [ProducerError(side, outcome.error)]
    else seq(|outcome.value|, i requires 0 <= i < |outcome.value| => Chunk(side, outcome.value[i], modelId))
  }

  /**
   * `compare_models`: both models stream through the service, each producer labels its
   * chunks and puts an end marker when done, the schedule interleaves the two producers,
   * and the consumer yields items until it has counted two end markers.
   */
  method CompareModels(service: AIModelService, modelA: AIModel, chunksA: seq<string>, failureA: Option<string>,
                       modelB: AIModel, chunksB: seq<string>, failureB: Option<string>, picks: seq<bool>)
    returns (out: seq<LabelledItem>)
    ensures var xs := Produced(PARTICIPANT_A, modelA.id, service.StreamCompletion(modelA, chunksA, failureA));
            var ys := Produced(PARTICIPANT_B, modelB.id, service.StreamCompletion(modelB, chunksB, failureB));
            out == StreamMerge.Values(StreamMerge.Merge(StreamMerge.Worker(PARTICIPANT_A, xs), StreamMerge.Worker(PARTICIPANT_B, ys), picks))
  {
    var xs := Produced(PARTICIPANT_A, modelA.id, service.StreamCompletion(modelA, chunksA, failureA));
    var ys := Produced(PARTICIPANT_B, modelB.id, service.StreamCompletion(modelB, chunksB, failureB));
    var q := StreamMerge.Merge(StreamMerge.Worker(PARTICIPANT_A, xs), StreamMerge.Worker(PARTICIPANT_B, ys), picks);
    var used, finished;
    out, used, finished := StreamMerge.ConsumeUntilTwo(q);
    StreamMerge.MergedWorkers(xs, ys, picks, q);
    if finished {
      StreamMerge.ConsumersDrain(q, used);
    }
    assert q[..used] == q;
  }

  /**
   * Whatever the schedule, the merged comparison stream restricted to a label is that
   * model's labelled output in order, and it holds nothing else.
   */
  lemma CompareModelsOrder(xs: seq<LabelledItem>, ys: seq<LabelledItem>, picks: seq<bool>, q: seq<StreamMerge.QueueItem<LabelledItem>>)
    requires q == StreamMerge.Merge(StreamMerge.Worker(PARTICIPANT_A, xs), StreamMerge.Worker(PARTICIPANT_B, ys), picks)
    ensures StreamMerge.Project(q, PARTICIPANT_A) == xs && StreamMerge.Project(q, PARTICIPANT_B) == ys
    ensures StreamMerge.Ends(q) == 2 && StreamMerge.Ends(q[..|q| - 1]) == 1
    ensures |StreamMerge.Values(q)| == |xs| + |ys|
  {
    StreamMerge.MergedWorkers(xs, ys, picks, q);
    StreamMerge.ValuesCount(q);
  }
}
