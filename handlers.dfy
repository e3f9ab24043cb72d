/** The request handlers of main.py that decide something: the default selection of `index`,
    the family fallback of `checkpoints_partial`, and the validation and normalisation flow of
    `generate_prompt_handler`. Each handler is a function from its inputs to what the template
    is rendered with; the key file and the environment are snapshots, and the provider calls
    are the `Services` of the adapters. */
module Handlers {
  import opened Wrappers
  import opened Text
  import opened Config
  import opened Lookup
  import opened Credentials
  import opened Compiler
  import opened Adapters

  // ---------------------------------------------------------------------------------------
  // `index` and `checkpoints_partial`

  /** The family and checkpoint `index` preselects: the first family and its first
      checkpoint, which are `sd15` and `sd15_base`. */
  function IndexSelection(): (r: (Family, Checkpoint))
    ensures r.0 == Families[0] && r.0.id == "sd15"
    ensures r.1 in r.0.checkpoints && r.1.id == "sd15_base"
  {
    DefaultFamilyIsSd15();
    (Families[0], Families[0].checkpoints[0])
  }

  /** `checkpoints_partial`: the family with the given id, or the first family for an unknown
      id, and that family's first checkpoint. */
  function PartialSelection(familyId: string): (r: (Family, Checkpoint))
    ensures r.0 in Families && r.1 in r.0.checkpoints
    ensures r.1 == r.0.checkpoints[0]
  {
    GetFamilyExact(familyId);
    EveryFamilyHasCheckpoints();
    var family := GetFamily(familyId).GetOr(Families[0]);
    (family, family.checkpoints[0])
  }

  /** A known id selects its own family; an unknown id selects the same as `index` does. */
  lemma PartialSelectionFallback(familyId: string)
    ensures forall i :: 0 <= i < |Families| && Families[i].id == familyId ==> PartialSelection(familyId).0 == Families[i]
    ensures (forall i :: 0 <= i < |Families| ==> Families[i].id != familyId) ==>
      PartialSelection(familyId) == IndexSelection()
  {
    GetFamilyExact(familyId);
  }

  // ---------------------------------------------------------------------------------------
  // `generate_prompt_handler`

  /** The form fields of `POST /generate`, with the uploaded files already read. */
  datatype GenerateForm = GenerateForm(
    provider: string,
    apiKey: string,
    modelFamilyId: string,
    checkpointId: string,
    focusAspects: seq<string>,
    creativityLevel: real,
    additionalContext: string,
    upscaler: Option<string>,
    faceFixer: Option<string>,
    controlModel: Option<string>,
    images: seq<ImageInput>)

  /** What the result partial is rendered with: an error message, or the result. */
  datatype Page =
    | ErrorPage(error: string)
    | ResultPage(prompt: string, negativePrompt: string, modelFamily: string, checkpoint: string)

  const NoImages := "Please upload at least one reference image."
  const InvalidModel := "Invalid model configuration."
  const GenerationFailed := "Failed to generate prompt. Please try again."

  /** The missing-key message names the provider's label, or says `selected` for a provider
      without one. */
  function MissingKeyMessage(provider: string): string {
    MissingKeyLead + (if provider in ProviderLabels then ProviderLabels[provider] else "selected") + MissingKeyTail
  }

  const MissingKeyLead := "API Key is missing. Please enter your "
  const MissingKeyTail := " API Key."

  lemma MissingKeyOpening(provider: string)
    ensures StartsWith(MissingKeyMessage(provider), MissingKeyLead)
  {
    var m := MissingKeyMessage(provider);
    var labelName := if provider in ProviderLabels then ProviderLabels[provider] else "selected";
    assert m == MissingKeyLead + (labelName + MissingKeyTail);
    assert m[..|MissingKeyLead|] == MissingKeyLead;
  }

  /** `get_checkpoint(family, checkpoint_id)`, or the family's first checkpoint. */
  function SelectedCheckpoint(family: Family, checkpointId: string): (c: Checkpoint)
    requires |family.checkpoints| > 0
    ensures c in family.checkpoints
    ensures GetCheckpoint(family, checkpointId).Some? ==> c.id == checkpointId
    ensures GetCheckpoint(family, checkpointId).None? ==> c == family.checkpoints[0]
  {
    GetCheckpoint(family, checkpointId).GetOr(family.checkpoints[0])
  }

  /** `selection or None`: an empty selection is no selection. */
  function NoneIfEmpty(s: Option<string>): (r: Option<string>)
    ensures r.None? || r.value != ""
    ensures Truthy(r) == Truthy(s)
    ensures Truthy(s) ==> r == s
  {
    if Truthy(s) then s else None
  }

  /** The configuration dictionary the handler passes to `generate_prompt`. */
  function RequestConfig(form: GenerateForm, family: Family, checkpoint: Checkpoint): GenerationConfig {
    GenerationConfig(
      family.id, checkpoint.id, form.focusAspects, Some(form.creativityLevel), Some(form.additionalContext),
      Auxiliary(NoneIfEmpty(form.upscaler), NoneIfEmpty(form.faceFixer), NoneIfEmpty(form.controlModel)))
  }

  /** The normalisation of the auxiliary selections does not change the instruction document:
      the compiler already treats an empty selection as no selection. */
  lemma AuxiliaryNormalisation(form: GenerateForm)
    ensures var raw := Auxiliary(form.upscaler, form.faceFixer, form.controlModel);
      var normalised := Auxiliary(NoneIfEmpty(form.upscaler), NoneIfEmpty(form.faceFixer), NoneIfEmpty(form.controlModel));
      AuxNotes(normalised) == AuxNotes(raw) && AuxBlock(normalised) == AuxBlock(raw)
  {
  }

  /** main.py `generate_prompt_handler`: images are required, then a known family; an unknown
      checkpoint falls back to the family's first; then a key must resolve; then any failure of
      `generate_prompt` becomes the generic message. The negative prompt of a result is always
      a string, so `or ""` leaves it as it is. */
  function HandleGenerate(form: GenerateForm, envFile: Option<string>, environ: map<string, string>,
                          services: Services): (page: Page)
    ensures page.ErrorPage? ==>
      page.error in {NoImages, InvalidModel, GenerationFailed} || StartsWith(page.error, MissingKeyLead)
  {
    if form.images == [] then ErrorPage(NoImages)
    else match GetFamily(form.modelFamilyId)
      case None => ErrorPage(InvalidModel)
      case Some(family) =>
        GetFamilyExact(form.modelFamilyId);
        var checkpoint := SelectedCheckpoint(family, form.checkpointId);
        WithCheckpoint(form.provider, form.apiKey, form.images, RequestConfig(form, family, checkpoint), family, checkpoint,
                       envFile, environ, services)
  }

  /** The rest of the handler once family and checkpoint are settled: key resolution, then
      the generation with its failures mapped to the generic message. */
  function WithCheckpoint(provider: string, apiKey: string, images: seq<ImageInput>, config: GenerationConfig,
                          family: Family, checkpoint: Checkpoint, envFile: Option<string>,
                          environ: map<string, string>, services: Services): (page: Page)
    ensures page.ErrorPage? ==> page.error == GenerationFailed || StartsWith(page.error, MissingKeyLead)
  {
    var key := ResolvedKey(provider, Some(apiKey), envFile, environ);
    MissingKeyOpening(provider);
    if !Truthy(key) then ErrorPage(MissingKeyMessage(provider))
    else match Generated(services, images, config, provider, key.value, family, checkpoint)
      case Failure(_) => ErrorPage(GenerationFailed)
      case Success(result) => ResultPage(result.prompt, result.negativePrompt, family.labelText, checkpoint.labelText)
  }

  /** The checks run in a fixed order, and each one decides the page before anything later is
      consulted: without images nothing else matters; with an unknown family neither the key
      file, the environment nor the providers matter; with no key the providers do not. */
  lemma CheckOrder(form: GenerateForm, envFile: Option<string>, environ: map<string, string>, services: Services,
                   envFile': Option<string>, environ': map<string, string>, services': Services)
    ensures form.images == [] ==> HandleGenerate(form, envFile, environ, services) == ErrorPage(NoImages)
    ensures form.images != [] && GetFamily(form.modelFamilyId).None? ==>
      HandleGenerate(form, envFile, environ, services) == ErrorPage(InvalidModel) == HandleGenerate(form, envFile', environ', services')
    ensures (form.images != [] && GetFamily(form.modelFamilyId).Some? &&
             !Truthy(ResolvedKey(form.provider, Some(form.apiKey), envFile, environ))) ==>
      HandleGenerate(form, envFile, environ, services) == ErrorPage(MissingKeyMessage(form.provider)) ==
      HandleGenerate(form, envFile, environ, services')
  {
  }

  /** Past the checks, the page is decided by `generate_prompt` alone: any failure it raises
      becomes the generic "try again" message, and a result is shown with the family's and the
      selected checkpoint's labels. */
  lemma GenerationOutcome(form: GenerateForm, envFile: Option<string>, environ: map<string, string>, services: Services)
    requires form.images != [] && GetFamily(form.modelFamilyId).Some?
    requires Truthy(ResolvedKey(form.provider, Some(form.apiKey), envFile, environ))
    ensures |GetFamily(form.modelFamilyId).value.checkpoints| > 0
    ensures var family := GetFamily(form.modelFamilyId).value;
      var checkpoint := SelectedCheckpoint(family, form.checkpointId);
      var key := ResolvedKey(form.provider, Some(form.apiKey), envFile, environ).value;
      var r := Generated(services, form.images, RequestConfig(form, family, checkpoint), form.provider, key, family, checkpoint);
      var page := HandleGenerate(form, envFile, environ, services);
      && (r.Failure? ==> page == ErrorPage(GenerationFailed))
      && (r.Success? ==> page == ResultPage(r.value.prompt, r.value.negativePrompt, family.labelText, checkpoint.labelText))
  {
    HandleFoundFamily(form, envFile, environ, services);
  }

  /** Without images the page is the upload error whatever else the form holds. */
  lemma NoImagesFirst(form: GenerateForm, form': GenerateForm, envFile: Option<string>, environ: map<string, string>,
                      services: Services)
    requires form.images == [] && form'.images == []
    ensures HandleGenerate(form, envFile, environ, services) == HandleGenerate(form', envFile, environ, services)
  {
  }

  /** Once the family is found, the handler goes on with the selected checkpoint. */
  lemma HandleFoundFamily(form: GenerateForm, envFile: Option<string>, environ: map<string, string>, services: Services)
    requires form.images != [] && GetFamily(form.modelFamilyId).Some?
    ensures |GetFamily(form.modelFamilyId).value.checkpoints| > 0
    ensures var family := GetFamily(form.modelFamilyId).value;
      var checkpoint := SelectedCheckpoint(family, form.checkpointId);
      HandleGenerate(form, envFile, environ, services) ==
      WithCheckpoint(form.provider, form.apiKey, form.images, RequestConfig(form, family, checkpoint), family, checkpoint,
                     envFile, environ, services)
  {
    FoundFamily(form.modelFamilyId);
  }

  /** An unknown checkpoint id is handled exactly as if the family's first checkpoint had been
      selected. */
  lemma CheckpointFallback(form: GenerateForm, envFile: Option<string>, environ: map<string, string>, services: Services)
    requires form.images != [] && GetFamily(form.modelFamilyId).Some?
    requires GetCheckpoint(GetFamily(form.modelFamilyId).value, form.checkpointId).None?
    ensures GetFamily(form.modelFamilyId).value.checkpoints != []
    ensures HandleGenerate(form, envFile, environ, services) ==
      HandleGenerate(form.(checkpointId := GetFamily(form.modelFamilyId).value.checkpoints[0].id), envFile, environ, services)
  {
    var family := GetFamily(form.modelFamilyId).value;
    FoundFamily(form.modelFamilyId);
    FirstCheckpointFound(family);
    var checkpoint := family.checkpoints[0];
    var form' := form.(checkpointId := checkpoint.id);
    HandleFoundFamily(form, envFile, environ, services);
    HandleFoundFamily(form', envFile, environ, services);
    assert SelectedCheckpoint(family, form'.checkpointId) == checkpoint;
    assert RequestConfig(form, family, checkpoint) == RequestConfig(form', family, checkpoint);
  }

  /** A provider outside the three: with no explicit key the page asks for the "selected" key;
      with one, the dispatch refuses the provider and the page is the generic failure. */
  lemma UnknownProvider(form: GenerateForm, envFile: Option<string>, environ: map<string, string>, services: Services)
    requires form.provider !in ProviderLabels
    requires form.images != [] && GetFamily(form.modelFamilyId).Some?
    ensures form.apiKey == "" ==>
      HandleGenerate(form, envFile, environ, services) == ErrorPage(MissingKeyLead + "selected" + MissingKeyTail)
    ensures form.apiKey != "" ==> HandleGenerate(form, envFile, environ, services) == ErrorPage(GenerationFailed)
  {
    var family := GetFamily(form.modelFamilyId).value;
    HandleFoundFamily(form, envFile, environ, services);
    var checkpoint := SelectedCheckpoint(family, form.checkpointId);
    var key := ResolvedKey(form.provider, Some(form.apiKey), envFile, environ);
    ProviderLabelsDomain();
    if form.apiKey == "" {
      assert key == None;
    } else {
      assert key == Some(form.apiKey);
      GeneratedDispatch(services, form.images, RequestConfig(form, family, checkpoint), form.provider, key.value, family, checkpoint);
    }
  }

  /** A result page only comes from a request with images, a catalog family, one of that
      family's checkpoints and a resolved key; its prompt is never empty, and for `z_image` its
      negative prompt is not either. */
  lemma ResultPageFacts(form: GenerateForm, envFile: Option<string>, environ: map<string, string>, services: Services)
    ensures var page := HandleGenerate(form, envFile, environ, services);
      page.ResultPage? ==>
        && form.images != []
        && GetFamily(form.modelFamilyId).Some?
        && page.modelFamily == GetFamily(form.modelFamilyId).value.labelText
        && (exists c :: c in GetFamily(form.modelFamilyId).value.checkpoints && page.checkpoint == c.labelText)
        && Truthy(ResolvedKey(form.provider, Some(form.apiKey), envFile, environ))
        && form.provider in ProviderLabels
        && page.prompt != ""
        && (form.modelFamilyId == "z_image" ==> page.negativePrompt != "")
  {
    var page := HandleGenerate(form, envFile, environ, services);
    if page.ResultPage? {
      var family := GetFamily(form.modelFamilyId).value;
      GetFamilyExact(form.modelFamilyId);
      var checkpoint := SelectedCheckpoint(family, form.checkpointId);
      var key := ResolvedKey(form.provider, Some(form.apiKey), envFile, environ);
      var config := RequestConfig(form, family, checkpoint);
      GeneratedDispatch(services, form.images, config, form.provider, key.value, family, checkpoint);
      var i :| 0 <= i < |Families| && Families[i].id == form.modelFamilyId;
      assert family == Families[i];
      assert checkpoint in family.checkpoints && page.checkpoint == checkpoint.labelText;
    }
  }
}
