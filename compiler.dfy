/** The instruction compiler of prompting.py: `ensure_negative_prompt` and
    `build_prompt_text`, which turns a generation configuration, a family and a checkpoint into
    the instruction document sent to the vision model. */
module Compiler {
  import opened Wrappers
  import opened Text
  import opened Config
  import opened Lookup
  import opened Credentials

  /** The `auxiliary` entry of the configuration; each selection is an optional model id, and
      only a non-empty one counts as selected. */
  datatype Auxiliary = Auxiliary(upscaler: Option<string>, faceFixer: Option<string>, controlModel: Option<string>)

  /** The per-request configuration dictionary; an absent `auxiliary` entry is
      `Auxiliary(None, None, None)`, absent `focusAspects` the empty list. */
  datatype GenerationConfig = GenerationConfig(
    modelFamilyId: string,
    checkpointId: string,
    focusAspects: seq<string>,
    creativityLevel: Option<real>,
    additionalContext: Option<string>,
    auxiliary: Auxiliary)

  /** The exact negative prompt the `z_image` family requires. */
  const ZImageNegativePrompt := "blurry ugly bad"

  /** prompting.py `ensure_negative_prompt`: a non-empty provided value passes through for
      every family; otherwise `z_image` gets its fixed negative prompt and every other family
      the empty string. */
  function EnsureNegativePrompt(familyId: string, provided: Option<string>): (r: string)
    ensures Truthy(provided) ==> r == provided.value
    ensures !Truthy(provided) && familyId == "z_image" ==> r == ZImageNegativePrompt
    ensures !Truthy(provided) && familyId != "z_image" ==> r == ""
    ensures familyId == "z_image" ==> r != ""
  {
    if familyId == "z_image" then (if Truthy(provided) then provided.value else ZImageNegativePrompt)
    else (if Truthy(provided) then provided.value else "")
  }

  /** Normalising an already normalised negative prompt changes nothing. */
  lemma EnsureNegativePromptIdempotent(familyId: string, provided: Option<string>)
    ensures EnsureNegativePrompt(familyId, Some(EnsureNegativePrompt(familyId, provided))) ==
            EnsureNegativePrompt(familyId, provided)
  {
  }

  const FluxGuidance :=
    "Output a rich, descriptive natural language paragraph. Focus on textures, "
    + "lighting, and physical details. Do NOT use comma-separated tags unless "
    + "specifying a specific trigger word. Describe the scene as if writing a story. "
    + "Flux handles complex instruction well."
  const SdxlGuidance :=
    "Output a hybrid format: start with a strong subject description in natural language, "
    + "followed by comma-separated quality tags (e.g., 'masterpiece, best quality, 8k, "
    + "ultra-detailed'). Include specific camera settings if photorealistic."
  const Sd15Guidance :=
    "Heavily reliant on tags. Use comma-separated keywords. Focus on 'best quality', "
    + "'masterpiece', and specific art station tags. Keep sentences short or broken into tokens."
  const Sd3Guidance :=
    "Use natural language with high attention to detail. SD3 adheres strictly to the prompt, "
    + "so include every visible element, color, and relationship between objects. It understands "
    + "spatial relationships well."
  const ZImageGuidance :=
    "This model (AuraFlow architecture) uses the Qwen 3.4B LLM as a text encoder. Write a "
    + "long, flowing, multi-sentence caption (120-180 words) that reads like vivid alt-text: "
    + "cover subject identity, wardrobe, props, background, lighting, composition, camera/lens "
    + "info, and microtextures. Avoid tag soup and keep it natural. CRITICAL: The Negative Prompt "
    + "must be exactly 'blurry ugly bad'."
  const VideoGuidance :=
    "This is for a VIDEO generation model. Describe the MOTION, camera movement (pan, zoom, "
    + "tilt), and duration flow. Start with the scene description, then describe how the subject "
    + "moves or how the camera moves. E.g., 'The girl smiles as the camera slowly zooms in'."
  const StandardGuidance := "Standard Stable Diffusion prompting. Use a mix of description and quality tags."
  const GenericGuidance := "Generate a high-quality, detailed prompt suitable for diffusion models."

  /** The family ids that have their own guidance; every other id gets the generic default. */
  const GuidedFamilyIds: set<string> :=
    {"flux1", "flux2", "sdxl", "sd15", "sd3", "z_image", "wan22", "svd", "cascade", "sd21"}

  /** The guidance chain of `build_prompt_text`, keyed by family id. */
  function PromptGuidance(familyId: string): string {
    if familyId in {"flux1", "flux2"} then FluxGuidance
    else if familyId == "sdxl" then SdxlGuidance
    else if familyId == "sd15" then Sd15Guidance
    else if familyId == "sd3" then Sd3Guidance
    else if familyId == "z_image" then ZImageGuidance
    else if familyId in {"wan22", "svd"} then VideoGuidance
    else if familyId in {"cascade", "sd21"} then StandardGuidance
    else GenericGuidance
  }

  /** The paired families share one guidance string, and exactly the unlisted ids get the
      generic default. */
  lemma GuidanceTable(familyId: string)
    ensures PromptGuidance("flux1") == PromptGuidance("flux2") == FluxGuidance
    ensures PromptGuidance("wan22") == PromptGuidance("svd") == VideoGuidance
    ensures PromptGuidance("cascade") == PromptGuidance("sd21") == StandardGuidance
    ensures PromptGuidance(familyId) == GenericGuidance <==> familyId !in GuidedFamilyIds
  {
  }

  /** Every family of the catalog reaches one of the specific guidance branches. */
  lemma CatalogFamiliesAreGuided()
    ensures forall i :: 0 <= i < |Families| ==> Families[i].id in GuidedFamilyIds
    ensures forall i :: 0 <= i < |Families| ==> PromptGuidance(Families[i].id) != GenericGuidance
  {
    forall i | 0 <= i < |Families| ensures PromptGuidance(Families[i].id) != GenericGuidance {
      GuidanceTable(Families[i].id);
    }
  }

  const ExactNegativeInstruction := "Negative Prompt MUST be exactly \"blurry ugly bad\"."
  const GenericNegativeInstruction :=
    "Include a concise Negative Prompt that filters common artifacts (blur, distortion, duplicate limbs, bad anatomy)."

  /** The negative-prompt instruction: the exact-literal requirement if and only if the family
      is `z_image`. */
  function NegativePromptGuidance(familyId: string): (r: string)
    ensures r == ExactNegativeInstruction <==> familyId == "z_image"
    ensures r == GenericNegativeInstruction <==> familyId != "z_image"
  {
    if familyId == "z_image" then ExactNegativeInstruction else GenericNegativeInstruction
  }

  /** The label used in the ControlNet note: that of the catalog's control model with the
      selected id, or `control model` for an id the catalog does not list. */
  function ControlLabel(controlId: string): string {
    match GetControlModel(controlId)
    case Some(c) => c.labelText
    case None => "control model"
  }

  lemma ControlLabelOf(controlId: string)
    ensures forall k :: 0 <= k < |ControlModels| && ControlModels[k].id == controlId ==>
      ControlLabel(controlId) == ControlModels[k].labelText
    ensures (forall k :: 0 <= k < |ControlModels| ==> ControlModels[k].id != controlId) ==>
      ControlLabel(controlId) == "control model"
  {
    forall k | 0 <= k < |ControlModels| && ControlModels[k].id == controlId
      ensures ControlLabel(controlId) == ControlModels[k].labelText
    {
      GetControlModelExact(k, controlId);
    }
  }

  /** The opening shared by every auxiliary note. */
  const NotePrefix := "User is using "

  function ControlNote(labelName: string): string {
    NotePrefix + "ControlNet (" + labelName + "). Ensure the prompt "
    + "describes pose/structure clearly so it aligns with the control signal."
  }

  const UpscalerNote :=
    NotePrefix + "an Upscaler. Emphasize high-frequency details (texture, fabric threads, pores) "
    + "to justify the resolution."
  const FaceFixerNote := NotePrefix + "a face-fixing stage. Keep facial identity consistent and clearly described."
  const NoAuxiliaryNote := "No auxiliary models selected."

  /** `aux_notes` of `build_prompt_text`: one note per selected auxiliary model, in the fixed
      order control model, upscaler, face fixer. */
  function AuxNotes(aux: Auxiliary): seq<string> {
    (if Truthy(aux.controlModel) then [ControlNote(ControlLabel(aux.controlModel.value))] else [])
    + (if Truthy(aux.upscaler) then [UpscalerNote] else [])
    + (if Truthy(aux.faceFixer) then [FaceFixerNote] else [])
  }

  /** The appends of `build_prompt_text` that fill `aux_notes`, one `if` per selection. */
  method CollectAuxNotes(aux: Auxiliary) returns (notes: seq<string>)
    ensures notes == AuxNotes(aux)
    ensures |notes| == SelectionCount(aux)
  {
    notes := [];
    if Truthy(aux.controlModel) {
      notes := notes + [ControlNote(ControlLabel(aux.controlModel.value))];
    }
    if Truthy(aux.upscaler) {
      notes := notes + [UpscalerNote];
    }
    if Truthy(aux.faceFixer) {
      notes := notes + [FaceFixerNote];
    }
  }

  function SelectionCount(aux: Auxiliary): nat {
    (if Truthy(aux.controlModel) then 1 else 0)
    + (if Truthy(aux.upscaler) then 1 else 0)
    + (if Truthy(aux.faceFixer) then 1 else 0)
  }

  /** `aux_instruction_block`: the notes joined by spaces, or the explicit "none" note. */
  function AuxBlock(aux: Auxiliary): string {
    var notes := AuxNotes(aux);
    if notes != [] then Join(notes, " ") else NoAuxiliaryNote
  }

  lemma {:induction false} JoinStartsWithFirst(xs: seq<string>, sep: string)
    requires xs != []
    ensures StartsWith(Join(xs, sep), xs[0])
  {
    if |xs| > 1 {
      assert Join(xs, sep) == xs[0] + (sep + Join(xs[1..], sep));
    }
  }

  /** Every note opens with "U" and the "none" note with "N", so no joined note list can be
      mistaken for the "none" note. */
  lemma NoteInitials(labelName: string)
    ensures ControlNote(labelName)[0] == 'U' && UpscalerNote[0] == 'U' && FaceFixerNote[0] == 'U'
    ensures NoAuxiliaryNote[0] == 'N'
  {
  }

  /** One note per selection, the control-model note first and the face-fixer note last when
      selected, and the "none" block exactly when nothing is selected. */
  lemma AuxNotesShape(aux: Auxiliary)
    ensures |AuxNotes(aux)| == SelectionCount(aux)
    ensures Truthy(aux.controlModel) ==> AuxNotes(aux)[0] == ControlNote(ControlLabel(aux.controlModel.value))
    ensures Truthy(aux.upscaler) ==> UpscalerNote in AuxNotes(aux)
    ensures Truthy(aux.faceFixer) ==> AuxNotes(aux)[|AuxNotes(aux)| - 1] == FaceFixerNote
  {
  }

  lemma AuxBlockNone(aux: Auxiliary)
    ensures AuxBlock(aux) == NoAuxiliaryNote <==> SelectionCount(aux) == 0
  {
    AuxNotesShape(aux);
    var notes := AuxNotes(aux);
    if notes != [] {
      JoinStartsWithFirst(notes, " ");
      NoteInitials(if Truthy(aux.controlModel) then ControlLabel(aux.controlModel.value) else "");
      assert notes[0][0] == 'U';
      assert Join(notes, " ")[0] == 'U';
    }
  }

  const OverallVibe := "Capture the overall vibe and subject of the images."
  const FocusLead := "Pay special attention to these aspects: "
  const FocusTail := ". Ensure these are described in high detail."

  /** `focus_instruction`: the aspects joined with ", " in their given order, or the
      "overall vibe" sentence for an empty list. */
  function FocusInstruction(aspects: seq<string>): (r: string)
    ensures aspects == [] <==> r == OverallVibe
    ensures aspects != [] ==> r == FocusLead + Join(aspects, ", ") + FocusTail
    ensures aspects != [] ==> StartsWith(r, FocusLead) && EndsWith(r, FocusTail)
  {
    if aspects != [] then
      var r := FocusLead + Join(aspects, ", ") + FocusTail;
      assert r[..|FocusLead|] == FocusLead;
      assert r[|r| - |FocusTail|..] == FocusTail;
      assert r[0] == 'P';
      r
    else OverallVibe
  }

  /** Each selected aspect appears in the focus sentence, in the given order: aspect `i` sits
      after the lead phrase and after every earlier aspect and its `", "`. */
  lemma FocusAspectsInOrder(aspects: seq<string>, i: nat)
    requires i < |aspects|
    ensures OccursAt(FocusInstruction(aspects), aspects[i], |FocusLead| + JoinOffset(aspects, ", ", i))
    ensures i + 1 < |aspects| ==>
      JoinOffset(aspects, ", ", i + 1) == JoinOffset(aspects, ", ", i) + |aspects[i]| + 2
  {
    var joined := Join(aspects, ", ");
    JoinOccurs(aspects, ", ", i);
    var o := JoinOffset(aspects, ", ", i);
    var r := FocusLead + joined + FocusTail;
    assert r[|FocusLead| + o..|FocusLead| + o + |aspects[i]|] == joined[o..o + |aspects[i]|];
  }

  /** `config.get('additionalContext') or 'None provided'`. */
  function ContextText(context: Option<string>): (r: string)
    ensures Truthy(context) ==> r == context.value
    ensures !Truthy(context) ==> r == "None provided"
    ensures r != ""
  {
    if Truthy(context) then context.value else "None provided"
  }

  const PersonaHeader :=
    "You are an expert AI Prompt Engineer.\n"
    + "Analyze the provided reference images and generate a SINGLE, perfect prompt that would recreate a similar output "
  const SynthesisInstruction :=
    "- If multiple images are provided, synthesize their common elements into one cohesive character or style definition.\n"
  const JsonContract :=
    "Return only valid JSON:\n"
    + "{\n"
    + "  \"prompt\": \"THE GENERATED PROMPT STRING\",\n"
    + "  \"negativePrompt\": \"THE NEGATIVE PROMPT STRING (OR EMPTY)\"\n"
    + "}"

  /** The part of the document that names the target: family and checkpoint labels. */
  function TargetLine(family: Family, checkpoint: Checkpoint): string {
    "using '" + family.labelText + "' (Checkpoint: " + checkpoint.labelText + ").\n\n"
  }

  function ArchitectureLines(family: Family): string {
    "Target Model Architecture: " + family.architecture + "\n" + "Model Type: " + family.kind + "\n"
  }

  function FocusLine(config: GenerationConfig): string {
    "Focus Areas: " + FocusInstruction(config.focusAspects) + "\n"
  }

  function ContextLine(config: GenerationConfig): string {
    "User Context/Notes: " + ContextText(config.additionalContext) + "\n"
  }

  function AuxLines(config: GenerationConfig): string {
    AuxBlock(config.auxiliary) + "\n\n"
  }

  function PromptGuidanceLine(familyId: string): string {
    "- " + PromptGuidance(familyId) + "\n"
  }

  function NegativeGuidanceLine(familyId: string): string {
    "- " + NegativePromptGuidance(familyId) + "\n\n"
  }

  function GuidanceLines(familyId: string): string {
    "Guidance:\n" + PromptGuidanceLine(familyId) + SynthesisInstruction + NegativeGuidanceLine(familyId)
  }

  /** prompting.py `build_prompt_text`, section by section. */
  function BuildPromptText(config: GenerationConfig, family: Family, checkpoint: Checkpoint): string {
    PersonaHeader + TargetLine(family, checkpoint)
    + ArchitectureLines(family) + FocusLine(config) + ContextLine(config) + AuxLines(config)
    + GuidanceLines(family.id)
    + JsonContract
  }

  /** The shape of the document as eight parts, with the facts about where each part sits. */
  lemma EightParts(p1: string, p2: string, p3: string, p4: string, p5: string, p6: string, p7: string, p8: string)
    ensures StartsWith(p1 + p2 + p3 + p4 + p5 + p6 + p7 + p8, p1 + p2)
    ensures EndsWith(p1 + p2 + p3 + p4 + p5 + p6 + p7 + p8, p8)
    ensures OccursAt(p1 + p2 + p3 + p4 + p5 + p6 + p7 + p8, p4, |p1 + p2 + p3|)
    ensures OccursAt(p1 + p2 + p3 + p4 + p5 + p6 + p7 + p8, p5, |p1 + p2 + p3 + p4|)
    ensures OccursAt(p1 + p2 + p3 + p4 + p5 + p6 + p7 + p8, p6, |p1 + p2 + p3 + p4 + p5|)
    ensures OccursAt(p1 + p2 + p3 + p4 + p5 + p6 + p7 + p8, p7, |p1 + p2 + p3 + p4 + p5 + p6|)
  {
    var s := p1 + p2 + p3 + p4 + p5 + p6 + p7 + p8;
    assert s == (p1 + p2) + (p3 + p4 + p5 + p6 + p7 + p8);
    assert s == (p1 + p2 + p3 + p4 + p5 + p6 + p7) + p8;
    assert s == (p1 + p2 + p3) + p4 + (p5 + p6 + p7 + p8);
    assert s == (p1 + p2 + p3 + p4) + p5 + (p6 + p7 + p8);
    assert s == (p1 + p2 + p3 + p4 + p5) + p6 + (p7 + p8);
    assert s == (p1 + p2 + p3 + p4 + p5 + p6) + p7 + p8;
  }

  lemma GuidanceParts(p1: string, p2: string, p3: string, p4: string)
    ensures OccursAt(p1 + p2 + p3 + p4, p2, |p1|)
    ensures OccursAt(p1 + p2 + p3 + p4, p4, |p1 + p2 + p3|)
  {
    var s := p1 + p2 + p3 + p4;
    assert s == p1 + p2 + (p3 + p4);
  }

  /** What occurs inside a part of a text occurs in the text. */
  lemma ContainsWithin(a: string, m: string, b: string, t: string)
    requires Contains(m, t)
    ensures Contains(a + m + b, t)
  {
    var i :| OccursAt(m, t, i);
    var s := a + m + b;
    assert s[|a| + i..|a| + i + |t|] == m[i..i + |t|];
    assert OccursAt(s, t, |a| + i);
  }

  /** The document opens with the persona header followed by the family and checkpoint labels,
      carries the focus instruction, the context (or "None provided"), the auxiliary block, the
      family's guidance and the negative-prompt instruction, and always ends with the two-key
      JSON contract. */
  lemma PromptDocumentLayout(config: GenerationConfig, family: Family, checkpoint: Checkpoint)
    ensures StartsWith(BuildPromptText(config, family, checkpoint), PersonaHeader + TargetLine(family, checkpoint))
    ensures EndsWith(BuildPromptText(config, family, checkpoint), JsonContract)
    ensures Contains(BuildPromptText(config, family, checkpoint), "Focus Areas: " + FocusInstruction(config.focusAspects) + "\n")
    ensures Contains(BuildPromptText(config, family, checkpoint), "User Context/Notes: " + ContextText(config.additionalContext) + "\n")
    ensures Contains(BuildPromptText(config, family, checkpoint), AuxBlock(config.auxiliary) + "\n\n")
    ensures Contains(BuildPromptText(config, family, checkpoint), "- " + PromptGuidance(family.id) + "\n")
    ensures Contains(BuildPromptText(config, family, checkpoint), "- " + NegativePromptGuidance(family.id) + "\n\n")
  {
    var doc := BuildPromptText(config, family, checkpoint);
    var guidance := GuidanceLines(family.id);
    EightParts(PersonaHeader, TargetLine(family, checkpoint), ArchitectureLines(family), FocusLine(config),
               ContextLine(config), AuxLines(config), guidance, JsonContract);
    var before := PersonaHeader + TargetLine(family, checkpoint) + ArchitectureLines(family) + FocusLine(config)
                  + ContextLine(config) + AuxLines(config);
    var promptLine := PromptGuidanceLine(family.id);
    var negativeLine := NegativeGuidanceLine(family.id);
    GuidanceParts("Guidance:\n", promptLine, SynthesisInstruction, negativeLine);
    ContainsWithin(before, guidance, JsonContract, promptLine);
    ContainsWithin(before, guidance, JsonContract, negativeLine);
  }
}
