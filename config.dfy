/** The read-only catalog of config.py: provider labels, the model families with their
    checkpoints, the auxiliary models and the focus aspects, with the facts about it that
    the lookups and the `checkpoints[0]` fallbacks elsewhere depend on. */
module Config {

  /** One trained weights file of a family (`labelText` is the catalog's `label`, a Dafny keyword). */
  datatype Checkpoint = Checkpoint(id: string, labelText: string)

  /** A diffusion-model family; `kind` is the catalog's `type` entry. */
  datatype Family = Family(
    id: string,
    labelText: string,
    architecture: string,
    kind: string,
    checkpoints: seq<Checkpoint>)

  /** A VAE, upscaler, face fixer or control model, referred to by id. */
  datatype AuxModel = AuxModel(id: string, labelText: string)

  /** The entries of a family that only the templates show. */
  datatype FamilyDetail = FamilyDetail(defaultResolution: nat, loaderNode: string, notes: string)

  const GeminiModel := "gemini-2.5-flash"
  const OpenAiModel := "gpt-4o-mini"
  const GrokModel := "grok-2-vision-latest"

  const ProviderLabels: map<string, string> := map[
    "gemini" := "Gemini",
    "openai" := "OpenAI",
    "grok" := "Grok"
  ]

  /** `MODEL_DATA["model_families"]`, in catalog order. */
  const Families: seq<Family> := [
    Family("sd15", "Stable Diffusion 1.5 Family", "stable-diffusion-v1", "image", [
        Checkpoint("sd15_base", "Stable Diffusion 1.5"),
        Checkpoint("sd15_inpaint", "SD 1.5 Inpainting")
      ]),
    Family("sd21", "Stable Diffusion 2.x Family", "stable-diffusion-v2", "image", [
        Checkpoint("sd21_base_512", "Stable Diffusion 2.1 (512)"),
        Checkpoint("sd21_base_768", "Stable Diffusion 2.1 (768)")
      ]),
    Family("sdxl", "SDXL 1.0 Family", "sdxl-1.0", "image", [
        Checkpoint("sdxl_base", "SDXL 1.0 Base"),
        Checkpoint("sdxl_refiner", "SDXL 1.0 Refiner"),
        Checkpoint("sdxl_juggernaut", "Juggernaut XL (example finetune)")
      ]),
    Family("sd3", "Stable Diffusion 3 / 3.5", "stable-diffusion-3", "image", [
        Checkpoint("sd3_medium", "Stable Diffusion 3 Medium"),
        Checkpoint("sd3_large", "Stable Diffusion 3 Large"),
        Checkpoint("sd35_large", "Stable Diffusion 3.5 Large"),
        Checkpoint("sd35_turbo", "Stable Diffusion 3.5 Turbo")
      ]),
    Family("flux1", "FLUX 1.x Family", "flux-1", "image", [
        Checkpoint("flux1_dev", "FLUX.1 dev"),
        Checkpoint("flux1_schnell", "FLUX.1 schnell")
      ]),
    Family("flux2", "FLUX.2 Family", "flux-2", "image", [
        Checkpoint("flux2_dev", "FLUX.2 dev"),
        Checkpoint("flux2_flex", "FLUX.2 flex"),
        Checkpoint("flux2_pro", "FLUX.2 pro")
      ]),
    Family("z_image", "Z-Image Turbo (AuraFlow)", "auraflow", "image", [
        Checkpoint("z_image_turbo", "Z-Image Turbo BF16")
      ]),
    Family("wan22", "WAN 2.2 Family", "wan-2.2", "image+video", [
        Checkpoint("wan22_5b_ti2v", "Wan 2.2 5B (T2I/T2V)"),
        Checkpoint("wan22_14b_ti2v", "Wan 2.2 14B (T2I/T2V)")
      ]),
    Family("svd", "Stable Video Diffusion", "stable-video-diffusion", "video", [
        Checkpoint("svd_base", "Stable Video Diffusion Base"),
        Checkpoint("svd_xt", "Stable Video Diffusion XT")
      ]),
    Family("cascade", "Stable Cascade / Other", "stable-cascade", "image", [
        Checkpoint("stable_cascade", "Stable Cascade"),
        Checkpoint("kandinsky_2", "Kandinsky 2.x"),
        Checkpoint("playground_v2", "Playground v2"),
        Checkpoint("pixart_sigma", "PixArt-\U{3A3} (Sigma)")
      ])
  ]

  /** `default_resolution`, `loader_node` and `notes` of each family, by family id. */
  const FamilyDetails: map<string, FamilyDetail> := map[
    "sd15" := FamilyDetail(512, "CheckpointLoaderSimple",
      "All SD 1.x finetunes (Anything, DreamShaper, etc.) are compatible."),
    "sd21" := FamilyDetail(768, "CheckpointLoaderSimple",
      "Includes 2.0 / 2.1 512px and 768px variants."),
    "sdxl" := FamilyDetail(1024, "SDXLCheckpointLoader",
      "SDXL base + refiner + SDXL finetunes."),
    "sd3" := FamilyDetail(1024, "SD3CheckpointLoader",
      "Requires SD3-specific loader/workflow, separate text encoders."),
    "flux1" := FamilyDetail(1024, "FLUXLoader",
      "Needs FLUX-specific custom nodes and workflows."),
    "flux2" := FamilyDetail(1024, "FLUX2Loader",
      "FLUX.2 dev/flex/pro variants via updated FLUX nodes."),
    "z_image" := FamilyDetail(1024, "UNETLoader (AuraFlow)",
      "Uses Qwen 3.4B LLM as text encoder. High adherence to natural language."),
    "wan22" := FamilyDetail(720, "WAN22Loader",
      "Requires WAN 2.2 custom nodes/workflows; supports T2I and T2V."),
    "svd" := FamilyDetail(576, "VideoDiffusionLoader",
      "Includes SVD and similar open video models via video nodes."),
    "cascade" := FamilyDetail(1024, "CascadeCheckpointLoader",
      "Includes Stable Cascade, Kandinsky, Playground v2, PixArt, etc.")
  ]

  const Vaes: seq<AuxModel> := [
    AuxModel("vae_sd15", "VAE for SD 1.5"),
    AuxModel("vae_sdxl", "VAE for SDXL"),
    AuxModel("vae_wan22", "VAE for Wan 2.2")
  ]

  const Upscalers: seq<AuxModel> := [
    AuxModel("4x_ultrasharp", "4x-UltraSharp"),
    AuxModel("swinir_4x", "SwinIR 4x")
  ]

  const FaceFixers: seq<AuxModel> := [
    AuxModel("gfpgan", "GFPGAN"),
    AuxModel("codeformer", "CodeFormer")
  ]

  const ControlModels: seq<AuxModel> := [
    AuxModel("controlnet_canny", "ControlNet Canny"),
    AuxModel("controlnet_depth", "ControlNet Depth"),
    AuxModel("ip_adapter_face", "IP-Adapter Face")
  ]

  /** The `path` of every checkpoint and auxiliary model, by model id. */
  const ModelPaths: map<string, string> := map[
    "sd15_base" := "models/checkpoints/sd15.safetensors",
    "sd15_inpaint" := "models/checkpoints/sd15_inpainting.safetensors",
    "sd21_base_512" := "models/checkpoints/sd21_512.safetensors",
    "sd21_base_768" := "models/checkpoints/sd21_768.safetensors",
    "sdxl_base" := "models/checkpoints/sdxl_base.safetensors",
    "sdxl_refiner" := "models/checkpoints/sdxl_refiner.safetensors",
    "sdxl_juggernaut" := "models/checkpoints/juggernaut_xl.safetensors",
    "sd3_medium" := "models/checkpoints/sd3_medium.safetensors",
    "sd3_large" := "models/checkpoints/sd3_large.safetensors",
    "sd35_large" := "models/checkpoints/sd35_large.safetensors",
    "sd35_turbo" := "models/checkpoints/sd35_turbo.safetensors",
    "flux1_dev" := "models/checkpoints/flux1_dev.safetensors",
    "flux1_schnell" := "models/checkpoints/flux1_schnell.safetensors",
    "flux2_dev" := "models/checkpoints/flux2_dev.safetensors",
    "flux2_flex" := "models/checkpoints/flux2_flex.safetensors",
    "flux2_pro" := "models/checkpoints/flux2_pro.safetensors",
    "z_image_turbo" := "z_image_turbo_bf16.safetensors",
    "wan22_5b_ti2v" := "models/checkpoints/wan2.2_ti2v_5b_fp16.safetensors",
    "wan22_14b_ti2v" := "models/checkpoints/wan2.2_ti2v_14b_fp16.safetensors",
    "svd_base" := "models/checkpoints/svd_base.safetensors",
    "svd_xt" := "models/checkpoints/svd_xt.safetensors",
    "stable_cascade" := "models/checkpoints/stable_cascade.safetensors",
    "kandinsky_2" := "models/checkpoints/kandinsky2.safetensors",
    "playground_v2" := "models/checkpoints/playground_v2.safetensors",
    "pixart_sigma" := "models/checkpoints/pixart_sigma.safetensors",
    "vae_sd15" := "models/vae/vae_sd15.safetensors",
    "vae_sdxl" := "models/vae/vae_sdxl.safetensors",
    "vae_wan22" := "models/vae/vae_wan22.safetensors",
    "4x_ultrasharp" := "models/upscale/4x_ultrasharp.safetensors",
    "swinir_4x" := "models/upscale/swinir_4x.safetensors",
    "gfpgan" := "models/facefix/gfpgan.pth",
    "codeformer" := "models/facefix/codeformer.pth",
    "controlnet_canny" := "models/controlnet/controlnet_canny.safetensors",
    "controlnet_depth" := "models/controlnet/controlnet_depth.safetensors",
    "ip_adapter_face" := "models/ipadapter/ipadapter_face.safetensors"
  ]

  const FocusAspects: seq<string> := [
    "Subject Identity",
    "Outfit & Fashion",
    "Pose & Angle",
    "Art Style & Aesthetic",
    "Lighting & Atmosphere",
    "Background & Setting",
    "Motion & Camera Movement"
  ]

  /** Exactly the three supported providers have a display label. */
  lemma ProviderLabelsDomain()
    ensures ProviderLabels.Keys == {"gemini", "openai", "grok"}
    ensures ProviderLabels["gemini"] == "Gemini" && ProviderLabels["openai"] == "OpenAI"
    ensures ProviderLabels["grok"] == "Grok"
  {
  }

  /** Length, first and last character: enough to tell the catalog's ids apart. */
  function IdTag(id: string): (int, char, char) {
    if id == [] then (0, ' ', ' ') else (|id|, id[0], id[|id| - 1])
  }

  /** Family ids are a key: no two catalog entries share one. */
  lemma FamilyIdsDistinct()
    ensures |Families| == 10
    ensures forall i, j :: 0 <= i < j < |Families| ==> Families[i].id != Families[j].id
  {
    var tags := [(4, 's', '5'), (4, 's', '1'), (4, 's', 'l'), (3, 's', '3'), (5, 'f', '1'),
                 (5, 'f', '2'), (7, 'z', 'e'), (5, 'w', '2'), (3, 's', 'd'), (7, 'c', 'e')];
    assert forall i :: 0 <= i < |Families| ==> IdTag(Families[i].id) == tags[i];
  }

  /** Every family owns at least one checkpoint, so `checkpoints[0]` is always defined. */
  lemma EveryFamilyHasCheckpoints()
    ensures forall i :: 0 <= i < |Families| ==> |Families[i].checkpoints| > 0
  {
  }

  /** Checkpoint ids are a key within each family. */
  lemma CheckpointIdsDistinct()
    ensures forall i, j, k :: 0 <= i < |Families| && 0 <= j < k < |Families[i].checkpoints| ==>
      Families[i].checkpoints[j].id != Families[i].checkpoints[k].id
  {
  }

  /** Control-model ids are a key. */
  lemma ControlIdsDistinct()
    ensures forall i, j :: 0 <= i < j < |ControlModels| ==> ControlModels[i].id != ControlModels[j].id
  {
  }

  /** The first family, the default of the index page, is SD 1.5 with its base checkpoint. */
  lemma DefaultFamilyIsSd15()
    ensures Families[0].id == "sd15"
    ensures |Families[0].checkpoints| > 0 && Families[0].checkpoints[0].id == "sd15_base"
  {
  }

  /** `z_image` is listed once, with the single checkpoint `z_image_turbo`. */
  lemma ZImageListedOnce()
    ensures Families[6].id == "z_image"
    ensures forall i :: 0 <= i < |Families| && Families[i].id == "z_image" ==> i == 6
    ensures |Families[6].checkpoints| == 1 && Families[6].checkpoints[0].id == "z_image_turbo"
  {
  }
}
