/**
 * The periodic check of the catalog (`validate_all_models` in ai_model/tasks.py): every active
 * model is validated against the service's providers; a model whose provider does not know
 * its code is deactivated, and a model whose check raises keeps its status but records the
 * error in its configuration. The catalog is a sequence of rows, updated position by position.
 */
module ModelValidation {
  import opened Wrappers
  import opened Entities
  import Text
  import Ordering
  import AIService

  const LAST_VALIDATION_ERROR: string := "last_validation_error"
  const VALIDATION_FAILED: string := "Model validation failed"

  /** What validating one model yields: whether the code is known, or the error raised for an unregistered provider. */
  function Check(providers: map<string, AIService.Provider>, m: AIModel): (r: Result<bool>)
    ensures r.Err? <==> m.provider !in providers
  {
    if m.provider !in providers then Err("Provider " + m.provider + " not initialized")
    else Ok(m.modelCode in AIService.Models(providers[m.provider].kind))
  }

  /** The row after the job: inactive rows are not visited. */
  function AfterValidation(providers: map<string, AIService.Provider>, m: AIModel): AIModel
  {
    if !m.isActive then m
    else
      var c := Check(providers, m);
      if c.Err? then m.(config := m.config[LAST_VALIDATION_ERROR := c.error])
      else if !c.value then m.(isActive := false, config := m.config[LAST_VALIDATION_ERROR := VALIDATION_FAILED])
      else m
  }

  /** An active model the job deactivates. */
  predicate Deactivated(providers: map<string, AIService.Provider>, m: AIModel)
  {
    m.isActive && Check(providers, m) == Ok(false)
  }

  /**
   * A row stays active exactly when it was active and not found invalid; a deactivated row
   * records the failure; a raised check records its message and keeps the row active; valid
   * and inactive rows are untouched; and running the job again changes nothing more.
   */
  lemma ValidationRules(providers: map<string, AIService.Provider>, m: AIModel)
    ensures AfterValidation(providers, m).isActive <==> m.isActive && !Deactivated(providers, m)
    ensures Deactivated(providers, m) ==>
      LAST_VALIDATION_ERROR in AfterValidation(providers, m).config
      && AfterValidation(providers, m).config[LAST_VALIDATION_ERROR] == VALIDATION_FAILED
    ensures m.isActive && m.provider !in providers ==>
      AfterValidation(providers, m) == m.(config := m.config[LAST_VALIDATION_ERROR := "Provider " + m.provider + " not initialized"])
    ensures !m.isActive || Check(providers, m) == Ok(true) ==> AfterValidation(providers, m) == m
    ensures AfterValidation(providers, AfterValidation(providers, m)) == AfterValidation(providers, m)
  {
  }

  /**
   * `validate_all_models` with the service built from the settings: each row after the job,
   * and the report of how many active models were validated and how many were deactivated.
   */
  method ValidateAllModels(service: AIService.AIModelService, catalog: seq<AIModel>) returns (out: seq<AIModel>, report: string)
    ensures |out| == |catalog|
    ensures forall i :: 0 <= i < |catalog| ==> out[i] == AfterValidation(service.providers, catalog[i])
    ensures var providers := service.providers;
            report == "Validated " + Text.NatToString(Ordering.CountIf(catalog, (m: AIModel) => m.isActive)) + " models, "
                      + Text.NatToString(Ordering.CountIf(catalog, (m: AIModel) => Deactivated(providers, m))) + " deactivated"
  {
    ghost var providers := service.providers;
    out := catalog;
    var validated, deactivated := 0, 0;
    for i := 0 to |catalog|
      invariant |out| == |catalog|
      invariant forall j :: 0 <= j < i ==> out[j] == AfterValidation(providers, catalog[j])
      invariant forall j :: i <= j < |catalog| ==> out[j] == catalog[j]
      invariant validated == Ordering.CountIf(catalog[..i], (m: AIModel) => m.isActive)
      invariant deactivated == Ordering.CountIf(catalog[..i], (m: AIModel) => Deactivated(providers, m))
    {
      Ordering.CountIfPrefix(catalog, i, (m: AIModel) => m.isActive);
      Ordering.CountIfPrefix(catalog, i, (m: AIModel) => Deactivated(providers, m));
      var m := catalog[i];
      if m.isActive {
        validated := validated + 1;
        var validation := service.ValidateModelConfiguration(m);
        if validation.Err? {
          out := out[i := m.(config := m.config[LAST_VALIDATION_ERROR := validation.error])];
        } else if !validation.value.isValid {
          deactivated := deactivated + 1;
          out := out[i := m.(isActive := false, config := m.config[LAST_VALIDATION_ERROR := VALIDATION_FAILED])];
        }
      }
    }
    assert catalog[..|catalog|] == catalog;
    report := "Validated " + Text.NatToString(validated) + " models, " + Text.NatToString(deactivated) + " deactivated";
  }
}
