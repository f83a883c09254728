/** Ordered failover over the configured models. */
module Failover {
  import opened Text
  import opened Wrappers
  import opened Agent

  /** The settings the model client reads. */
  datatype LLMSettings = LLMSettings(apiKey: Option<string>, defaultModel: Option<string>,
    fallbackModel: Option<string>)

  const PLACEHOLDER := "replace-me"
  const NOT_CONFIGURED := ApiError(503, "llm_not_configured")

  // ---------------------------------------------------------------- configuration

  function UsableModelName(value: Option<string>): Option<string> {
    match value
    case None => None
    case Some(text) =>
      var normalized := Strip(text);
      if normalized == "" || normalized == PLACEHOLDER then None else Some(normalized)
  }

  function RegisteredModels(settings: LLMSettings): seq<string> {
    var primary := UsableModelName(settings.defaultModel);
    var fallback := UsableModelName(settings.fallbackModel);
    if primary.None? then []
    else if fallback.None? || fallback == primary then [primary.value]
    else [primary.value, fallback.value]
  }

  function ConfiguredModels(settings: LLMSettings): Result<seq<string>, ApiError> {
    var models := RegisteredModels(settings);
    if settings.apiKey.None? || settings.apiKey.value == PLACEHOLDER || models == [] then Err(NOT_CONFIGURED)
    else Ok(models)
  }

  /**
    A name counts when something other than the placeholder remains after stripping; a counted name is a fixed
    point.
   */
  lemma UsableNames(value: Option<string>)
    ensures UsableModelName(value).Some? <==> value.Some? && Strip(value.value) !in {"", PLACEHOLDER}
    ensures UsableModelName(value).Some? ==>
              UsableModelName(UsableModelName(value)) == UsableModelName(value) && Trimmed(UsableModelName(value).value)
  {
    if UsableModelName(value).Some? {
      StripTrims(value.value);
      StripTrims(Strip(value.value));
    }
  }

  /**
    The registered models are distinct usable names, the primary first; without a usable primary there is none, and
    a fallback never takes its place.
   */
  lemma RegisteredInOrder(settings: LLMSettings)
    ensures var models := RegisteredModels(settings);
            && (models == [] <==> UsableModelName(settings.defaultModel).None?)
            && (models != [] ==> Some(models[0]) == UsableModelName(settings.defaultModel))
            && (forall i, j | 0 <= i < j < |models| :: models[i] != models[j])
            && (forall name :: name in models <==>
                  models != [] && Some(name) in {UsableModelName(settings.defaultModel),
                    UsableModelName(settings.fallbackModel)})
            && (forall name | name in models :: UsableModelName(Some(name)) == Some(name))
  {
    var primary := UsableModelName(settings.defaultModel);
    var fallback := UsableModelName(settings.fallbackModel);
    UsableNames(settings.defaultModel);
    UsableNames(settings.fallbackModel);
    var models := RegisteredModels(settings);
    forall name ensures name in models <==> models != [] && Some(name) in {primary, fallback} {
      if primary.Some? {
        assert models[0] == primary.value;
        if |models| == 2 {
          assert models[1] == fallback.value;
        }
      }
    }
    forall name | name in models ensures UsableModelName(Some(name)) == Some(name) {
      assert Some(name) in {primary, fallback};
    }
  }

  /** The setting names this model: a core other than the placeholder, between white space. */
  ghost predicate NamesModel(setting: Option<string>, name: string) {
    setting.Some? && Around(setting.value, name) && name != "replace-me"
  }

  /** A key that is not the placeholder, and a primary model. */
  ghost predicate Configured(settings: LLMSettings) {
    && settings.apiKey.Some? && settings.apiKey.value != "replace-me"
    && exists primary :: NamesModel(settings.defaultModel, primary)
  }

  lemma NamesUsable(setting: Option<string>, name: string)
    ensures NamesModel(setting, name) <==> UsableModelName(setting) == Some(name)
  {
    if setting.Some? {
      StripIsCore(setting.value, name);
    }
  }

  /**
    The models tried are the primary one and then the fallback, if there is a different one; without a key or a
    primary model the configuration is refused with 503.
   */
  lemma ModelsTried(settings: LLMSettings)
    ensures ConfiguredModels(settings).Ok? <==> Configured(settings)
    ensures ConfiguredModels(settings).Err? ==>
              ConfiguredModels(settings).error == ApiError(503, "llm_not_configured")
    ensures ConfiguredModels(settings).Ok? ==>
              var models := ConfiguredModels(settings).value;
              && 1 <= |models| <= 2 && NamesModel(settings.defaultModel, models[0])
              && (|models| == 2 <==> exists name :: NamesModel(settings.fallbackModel, name) && name != models[0])
              && (|models| == 2 ==> NamesModel(settings.fallbackModel, models[1]) && models[1] != models[0])
  {
    var primary, fallback := UsableModelName(settings.defaultModel), UsableModelName(settings.fallbackModel);
    forall name
      ensures NamesModel(settings.defaultModel, name) <==> primary == Some(name)
      ensures NamesModel(settings.fallbackModel, name) <==> fallback == Some(name)
    {
      NamesUsable(settings.defaultModel, name);
      NamesUsable(settings.fallbackModel, name);
    }
    if primary.Some? {
      assert NamesModel(settings.defaultModel, primary.value);
    }
    if fallback.Some? {
      assert NamesModel(settings.fallbackModel, fallback.value);
    }
  }

  // ---------------------------------------------------------------- streaming

  /** The runs of the models, in order, were each to be started. */
  function Runs(models: seq<string>, respond: string -> ModelRun): seq<ModelRun> {
    seq(|models|, i requires 0 <= i < |models| => respond(models[i]))
  }

  /** A model that failed before its first chunk. */
  predicate Silent(run: ModelRun) {
    run.failure.Some? && run.chunks == []
  }

  /** The model whose run reaches the consumer: the first that is not silent, else the last. */
  ghost predicate Decides(runs: seq<ModelRun>, i: nat) {
    && i < |runs|
    && (forall j | 0 <= j < i :: Silent(runs[j]))
    && (Silent(runs[i]) ==> i == |runs| - 1)
  }

  /**
    `astream`: what the consumer receives and what is finally raised. Without a usable key and primary model no
    model is started; otherwise the run of the deciding model reaches the consumer unchanged.
   */
  method Stream(settings: LLMSettings, respond: string -> ModelRun) returns (run: ModelRun)
    ensures match ConfiguredModels(settings)
            case Err(error) => run == ModelRun([], Some(Expected(error)))
            case Ok(models) => exists i: nat :: Decides(Runs(models, respond), i) && run == Runs(models, respond)[i]
    ensures !Configured(settings) ==> run == ModelRun([], Some(Expected(ApiError(503, "llm_not_configured"))))
  {
    ModelsTried(settings);
    var configured := ConfiguredModels(settings);
    if configured.Err? {
      return ModelRun([], Some(Expected(configured.error)));
    }
    var models := configured.value;
    ghost var runs := Runs(models, respond);
    var yielded: seq<Content> := [];
    for index := 0 to |models|
      invariant yielded == []
      invariant forall j | 0 <= j < index :: Silent(runs[j])
      invariant index < |models|
    {
      var emittedOutput := false;
      var attempt := respond(models[index]);
      for i := 0 to |attempt.chunks|
        invariant yielded == attempt.chunks[..i]
        invariant emittedOutput == (i > 0)
      {
        emittedOutput := true;
        yielded := yielded + [attempt.chunks[i]];
      }
      assert attempt.chunks[..|attempt.chunks|] == attempt.chunks;
      if attempt.failure.None? {
        assert Decides(runs, index);
        return ModelRun(yielded, None);
      }
      if emittedOutput || index == |models| - 1 {
        assert Decides(runs, index);
        return ModelRun(yielded, attempt.failure);
      }
    }
    assert false;
  }

  /** There is exactly one deciding model. */
  lemma {:induction false} OneDecides(runs: seq<ModelRun>)
    requires runs != []
    ensures exists i: nat :: Decides(runs, i)
    ensures forall i: nat, j: nat | Decides(runs, i) && Decides(runs, j) :: i == j
    decreases |runs|
  {
    if !Silent(runs[0]) || |runs| == 1 {
      assert Decides(runs, 0);
    } else {
      OneDecides(runs[1..]);
      var i: nat :| Decides(runs[1..], i);
      forall j | 0 <= j < i + 1 ensures Silent(runs[j]) {
        assert j == 0 || runs[j] == runs[1..][j - 1];
      }
      assert runs[i + 1] == runs[1..][i];
      assert Decides(runs, i + 1);
    }
  }

  /** A model completes and every earlier one failed before its first chunk. */
  ghost predicate Rescued(runs: seq<ModelRun>, i: nat) {
    i < |runs| && runs[i].failure.None? && forall j | 0 <= j < i :: Silent(runs[j])
  }

  /** The call succeeds exactly when some model completes and every earlier one failed before its first chunk. */
  lemma SucceedsExactlyWhen(runs: seq<ModelRun>, decided: nat)
    requires Decides(runs, decided)
    ensures runs[decided].failure.None? <==> exists i: nat :: Rescued(runs, i)
  {
    if runs[decided].failure.None? {
      assert Rescued(runs, decided);
    }
    forall i: nat | Rescued(runs, i) ensures i == decided {
      assert Decides(runs, i);
      OneDecides(runs);
    }
  }

  /** The chunks of all models started, in order. */
  function AllChunks(runs: seq<ModelRun>): seq<Content> {
    if runs == [] then [] else runs[0].chunks + AllChunks(runs[1..])
  }

  /**
    Models are never mixed and nothing is dropped: everything the started models produced is the stream of the
    deciding one.
   */
  lemma {:induction false} NeverMixed(runs: seq<ModelRun>, decided: nat)
    requires Decides(runs, decided)
    ensures AllChunks(runs[..decided + 1]) == runs[decided].chunks
    decreases decided
  {
    var started := runs[..decided + 1];
    if decided == 0 {
      assert started[1..] == [];
    } else {
      assert Silent(runs[0]);
      assert started[1..] == runs[1..][..decided];
      assert Decides(runs[1..], decided - 1) by {
        forall j | 0 <= j < decided - 1 ensures Silent(runs[1..][j]) {
          assert Silent(runs[j + 1]);
        }
      }
      NeverMixed(runs[1..], decided - 1);
    }
  }

  /** The streaming agent answers with the text of one model; the models before it wrote no token. */
  lemma AgentAnswersFromOneModel(runs: seq<ModelRun>, decided: nat)
    requires Decides(runs, decided)
    ensures StreamedBy(runs[decided]).tokens == Deltas(AllChunks(runs[..decided + 1]))
    ensures StreamedBy(runs[decided]).answer.Ok? <==> exists i: nat :: Rescued(runs, i)
    ensures forall i: nat | Rescued(runs, i) ::
              StreamedBy(runs[decided]).answer == Ok(OrFallback(Concat(Deltas(runs[i].chunks))))
  {
    NeverMixed(runs, decided);
    SucceedsExactlyWhen(runs, decided);
    forall i: nat | Rescued(runs, i) ensures i == decided {
      assert Decides(runs, i);
      OneDecides(runs);
    }
  }

  // ---------------------------------------------------------------- a single answer

  /** The answer of the first model that gives one, or the last error when none does. */
  ghost predicate FirstAnswer(models: seq<string>, respond: string -> Result<Content,
                              Failure>, response: Result<Content, Failure>)
    requires models != []
  {
    exists i | 0 <= i < |models| ::
      && respond(models[i]) == response
      && (forall j | 0 <= j < i :: respond(models[j]).Err?)
      && (response.Err? ==> i == |models| - 1)
  }

  /** `ainvoke`: the first answer, or the error of the last model. */
  method Invoke(settings: LLMSettings, respond: string -> Result<Content, Failure>) returns (response: Result<Content,
                Failure>)
    ensures match ConfiguredModels(settings)
            case Err(error) => response == Err(Expected(error))
            case Ok(models) => FirstAnswer(models, respond, response)
    ensures !Configured(settings) ==> response == Err(Expected(ApiError(503, "llm_not_configured")))
  {
    ModelsTried(settings);
    var configured := ConfiguredModels(settings);
    if configured.Err? {
      return Err(Expected(configured.error));
    }
    var models := configured.value;
    for index := 0 to |models|
      invariant index < |models|
      invariant forall j | 0 <= j < index :: respond(models[j]).Err?
    {
      response := respond(models[index]);
      if response.Ok? || index == |models| - 1 {
        return;
      }
    }
    assert false;
  }
}
