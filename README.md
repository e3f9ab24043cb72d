# Prompt Alchemy core, modelled in Dafny

Prompt Alchemy turns reference images and a generation configuration into a text-to-image prompt by asking a vision language model (Gemini, OpenAI or Grok) to write one. This project models the deterministic logic around that single network call and proves properties of it:

- **Key store and credential resolution.**
  - `resolve_api_key` parses `.env`-style lines into a dictionary, lays the process environment over it and looks up provider-specific names with aliases.
  - `update_env_file` upserts one `KEY=VALUE` line in place.
  - `load_api_key` and `update_api_key` are the endpoints built on these.
- **Instruction compiler.** `ensure_negative_prompt` and `build_prompt_text` cover the guidance table, the auxiliary notes, the focus and context lines, and the JSON output contract.
- **Provider adapters and dispatch.**
  - `_extract_output_text` (first match wins);
  - the request shapes and result mapping of `call_gemini` and `call_openai_compatible`;
  - the provider dispatch of `generate_prompt`.
- **Request handling.** `index`, `checkpoints_partial` and the validation flow of `generate_prompt_handler`: the check order, the checkpoint fallback, the normalisation of auxiliary selections and the catch-all error.
- **Catalog.** `MODEL_DATA` and `PROVIDER_LABELS` are constants, with the lookups `get_family` and `get_checkpoint`.

Files and modules:

| file | module | contents |
|---|---|---|
| `wrappers.dfy` | `Wrappers` | `Option`, `Result` |
| `text.dfy` | `Text` | Python `strip`, `splitlines`, `join`, `split("=", 1)`, `isspace` |
| `config.dfy` | `Config` | the catalog and provider labels of config.py, with facts about them |
| `lookup.dfy` | `Lookup` | first-match lookups (`next(generator, None)`) |
| `credentials.dfy` | `Credentials` | key-file line parsing and `resolve_api_key` |
| `env_file.dfy` | `EnvFile` | `update_env_file`, `load_api_key`, `update_api_key` |
| `compiler.dfy` | `Compiler` | `ensure_negative_prompt`, `build_prompt_text` |
| `adapters.dfy` | `Adapters` | `_extract_output_text`, both adapters, `generate_prompt` |
| `handlers.dfy` | `Handlers` | `index`, `checkpoints_partial`, `generate_prompt_handler` |

Modelling choices:

- **Outside state is passed in.**
  - The key file is passed in as its text: `Option<string>`, where `None` means the file does not exist. Writes return the new text.
  - The process environment is passed in as a `map`.
  - The vendor SDK calls, `base64.b64encode` and `json.loads` are the function-typed fields of a `Services` value. Every adapter is a function of what those return.
- **Loops become methods.** Each loop of the source is a method proved against a specification function: the key-file loop of `resolve_api_key`, the upsert loop, the scan of `load_api_key`, the nested scan of `_extract_output_text`, and the part-building loops of both adapters. The handlers and the dispatch are straight-line code, and are modelled as functions over those specification functions.
- **Python semantics are written out.**
  - `str.strip` uses the exact character set of `str.isspace`.
  - `str.splitlines` breaks at `\n`, `\r`, `\r\n`, `\x0b`, `\x0c`, `\x1c`–`\x1e`, `\x85`, `\u2028` and `\u2029`.
  - `a or b` on strings is `Credentials.Or`.
  - `dict.update` is map union, where the right side wins.
- **Behaviour of the code worth knowing:**
  - The process environment overrides entries of the key file, because `env.update(os.environ)` runs after the file is read.
  - The adapters do not convert errors into classified kinds. Transport failures become `RuntimeError`s with a provider-specific message. A reply that is not JSON leaves the adapter as the JSON decoder's own exception. A reply that is JSON but not an object passes the decoder and fails at `parsed.get(...)` with an `AttributeError`. The handler then maps every failure to one generic message.
  - The check for a missing image is in the request handler, not in `generate_prompt`.
- **`load_api_key` and `resolve_api_key` read duplicates differently.** `load_api_key` shows the first assignment of a key, while `resolve_api_key` uses the last one. `EnvFile.DuplicateAssignments` states the difference. An upsert removes it, because every assignment then carries the new value.

## Model

| member | source | states |
|---|---|---|
| Text.Strip | prompting.py:25 | `strip()` leaves no whitespace at either end and leaves an already stripped string unchanged |
| Text.StripSlice | prompting.py:25 | `strip()` keeps one slice of the string and cuts only whitespace before and after it |
| Text.IndexOf | prompting.py:28 | the split point of `split("=", 1)`: the first `=`, with no `=` before it, and `|s|` exactly when there is none |
| Text.JoinOccurs | prompting.py:120 | in `sep.join(xs)` every element sits at its own offset, and each next element starts one separator after the previous one ends |
| Text.JoinSnoc | prompting.py:120 | joining one more element adds the separator and that element at the end |
| Text.SplitJoined | main.py:47 | text written as `"\n".join(lines) + "\n"` reads back through `splitlines()` as the same lines, as long as no line holds a line break |
| Config.ProviderLabelsDomain | config.py:9-13 | `PROVIDER_LABELS` is defined for exactly gemini, openai and grok, with labels Gemini, OpenAI and Grok |
| Config.FamilyIdsDistinct | config.py:16-252 | there are ten families and their ids are pairwise distinct |
| Config.EveryFamilyHasCheckpoints | config.py:25-250 | every family has at least one checkpoint, so `checkpoints[0]` is always defined |
| Config.CheckpointIdsDistinct | config.py:25-250 | checkpoint ids are distinct within each family |
| Config.ControlIdsDistinct | config.py:295-311 | control-model ids are pairwise distinct |
| Config.DefaultFamilyIsSd15 | config.py:17-30 | the first family is `sd15` and its first checkpoint is `sd15_base` |
| Config.ZImageListedOnce | config.py:163-178 | `z_image` is listed once, with the single checkpoint `z_image_turbo` |
| Lookup.FindById | prompting.py:154-159 | `next(... if x["id"] == id, None)`: `None` exactly when no entry has the id, and otherwise the first entry that has it |
| Lookup.FindByIdUnique | prompting.py:155 | when ids are distinct, the first match is the one entry with that id |
| Lookup.GetFamilyExact | prompting.py:154-155 | `get_family` finds a family exactly when the catalog has that id, finds that catalog entry, and the entry has a checkpoint |
| Lookup.FoundFamily | prompting.py:154-155 | a family `get_family` returns is in the catalog, has the requested id and has a checkpoint |
| Lookup.GetCheckpointExact | prompting.py:158-159 | within a catalog family, `get_checkpoint` returns the one checkpoint with that id |
| Lookup.FirstCheckpointFound | main.py:157-159 | the first checkpoint of a family is found by its own id |
| Lookup.GetControlModelExact | prompting.py:102-105 | the control-model search returns the one control model with the selected id |
| Credentials.Or | prompting.py:34 | `a or b`: `a` when it is a non-empty string, otherwise `b` |
| Credentials.Assignment | prompting.py:25-29 | a line is an assignment exactly when its stripped form is non-empty, does not start with `#` and contains `=`; key and value come out stripped |
| Credentials.AssignmentSplit | prompting.py:28-29 | the key and value are the stripped halves of the stripped line around its first `=`, the key holding no `=` |
| Credentials.LastValueFound | prompting.py:24-29 | no value exactly when no line assigns the key; otherwise the value of a line that assigns it |
| Credentials.LastValueAt | prompting.py:24-29 | the value kept is that of the last line assigning the key |
| Credentials.StoreHoldsLastValue | prompting.py:21-29 | the dictionary the loop builds holds, for every key, exactly the value of the last line assigning it, so a later duplicate overrides an earlier one |
| Credentials.MergedLookup | prompting.py:31 | after `env.update(os.environ)`, a name reads from the environment first and from the file's last assignment second |
| Credentials.ResolvedKey | prompting.py:17-39 | an explicit non-empty key wins; gemini reads `GEMINI_API_KEY` then `API_KEY`; openai reads only `OPENAI_API_KEY`; grok reads `GROK_API_KEY` then `XAI_API_KEY`; any other provider gets none. Each name is read from the environment first and from the file second |
| Credentials.ResolveApiKey | prompting.py:17-39 | the loop over the file lines, the overlay and the lookup compute exactly `ResolvedKey` |
| Credentials.AssignmentOfPair | main.py:37 | the line `key=value` written for a clean key and value parses back as exactly that pair |
| EnvFile.KeyNamesValid | main.py:87-91 | the key map covers exactly the three providers, with one primary name each, and every name can be written and read back |
| EnvFile.ScanKeyFound | main.py:111-118 | no value exactly when no line assigns the key; otherwise the value of a line that assigns it |
| EnvFile.ScanKeyFirst | main.py:111-118 | the scan returns the value of the first line that assigns the key |
| EnvFile.LoadApiKey | main.py:98-119 | the early-returning loop computes `StoredKey`: `""` for an unknown provider or a missing file, else the first matching value, else `""` |
| EnvFile.Replaced | main.py:30-40 | every line keeps its position; an assignment of the key becomes `key=value`, and every other line is unchanged |
| EnvFile.UpdateEnvFile | main.py:23-47 | the loop with its `updated` flag, the conditional append and the join compute exactly `UpdatedFile` |
| EnvFile.UpdateApiKey | main.py:82-95 | a write happens exactly when the provider is known and the key is non-empty, and it writes the upsert of the provider's name |
| EnvFile.UpdateLayout | main.py:30-45 | non-matching lines stay in place, matching ones become `key=value`, and the count is kept when the key was present; otherwise the pair is appended, after one blank line only when the last line was non-empty |
| EnvFile.PairAssigns | main.py:37 | the written line assigns the key, with the value |
| EnvFile.UpdatedAssignments | main.py:35-45 | after the upsert the key is assigned, and every line assigning it carries the new value |
| EnvFile.UpdateThenScan | main.py:35-45 | after the upsert, the scan of `load_api_key` finds the new value |
| EnvFile.UpdateThenLastValue | prompting.py:24-29 | after the upsert, the last-assignment reading of `resolve_api_key` finds the new value |
| EnvFile.DuplicateAssignments | main.py:111-118 | with two assignments of a key, `load_api_key` shows the first value while `resolve_api_key` uses the last |
| EnvFile.UpdateIdempotent | main.py:30-45 | applying the same upsert twice gives the lines of applying it once |
| EnvFile.UpdatedLinesWithoutBreaks | main.py:42-47 | the upsert writes at least one line and no line break inside a line |
| EnvFile.ReadBackUpdatedFile | main.py:26-47 | the written text reads back through `splitlines()` as exactly the upserted lines |
| EnvFile.UpdateFileIdempotent | main.py:23-47 | writing the same key and value twice leaves the text of the first write |
| EnvFile.LoadAfterUpdate | main.py:98-119 | after `update_api_key(provider, k)` has written, `load_api_key(provider)` returns `k` |
| EnvFile.ResolveAfterUpdate | prompting.py:17-39 | after `update_api_key(provider, k)` has written, resolution without an explicit key yields `k` unless the environment defines the name |
| Compiler.EnsureNegativePrompt | prompting.py:42-45 | a non-empty value passes through for every family; otherwise `z_image` gets exactly `blurry ugly bad` and every other family `""`; never empty for `z_image` |
| Compiler.EnsureNegativePromptIdempotent | prompting.py:42-45 | normalising a normalised negative prompt changes nothing |
| Compiler.GuidanceTable | prompting.py:56-97 | flux1/flux2, wan22/svd and cascade/sd21 share one guidance each; the generic default is given exactly to the unlisted ids |
| Compiler.CatalogFamiliesAreGuided | prompting.py:56-95 | every catalog family reaches a specific guidance branch, never the default |
| Compiler.NegativePromptGuidance | prompting.py:125-129 | the exact-literal instruction if and only if the family is `z_image`, the generic one otherwise |
| Compiler.ControlLabelOf | prompting.py:101-109 | the ControlNet note uses the label of the catalog control model with the selected id, or `control model` for an unknown id |
| Compiler.CollectAuxNotes | prompting.py:99-116 | the three conditional appends to `aux_notes` build exactly `AuxNotes`, one note per non-empty selection |
| Compiler.AuxNotesShape | prompting.py:99-116 | one note per non-empty selection, in the order control model, upscaler, face fixer |
| Compiler.AuxBlockNone | prompting.py:131 | the block is `No auxiliary models selected.` exactly when nothing is selected |
| Compiler.FocusInstruction | prompting.py:118-123 | the "overall vibe" sentence exactly for an empty list; otherwise the attention phrase, the aspects joined with `", "`, and the detail phrase |
| Compiler.FocusAspectsInOrder | prompting.py:118-123 | every selected aspect appears in the focus sentence, in the given order, each next one after the previous one and its `", "` |
| Compiler.ContextText | prompting.py:140 | the context when non-empty, otherwise `None provided`; never empty |
| Compiler.PromptDocumentLayout | prompting.py:133-151 | the document starts with the persona header and the family and checkpoint labels, contains the focus, context, auxiliary, guidance and negative-prompt lines, and ends with the two-key JSON contract |
| Adapters.MapReply | prompting.py:211-214 | the prompt is the reply's when non-empty, otherwise `Failed to generate prompt.`, so it is never empty; the negative prompt is the family-normalised one |
| Adapters.ParseReply | prompting.py:206-214 | an empty reply raises the empty-reply error before parsing; otherwise it fails exactly when the text is not a JSON object, with the decoder's error for non-JSON, and maps an object |
| Adapters.ParseReplyWellFormed | prompting.py:210-214 | a mapped result has a non-empty prompt, and a non-empty negative prompt for `z_image` |
| Adapters.FirstTextFound | prompting.py:167-172 | no text exactly when no part is a non-empty text part; otherwise the text of the first one |
| Adapters.OutputTextFirstMatch | prompting.py:162-173 | with no `output_text`, the first text part in item/content order decides the result, stripped |
| Adapters.OutputTextNoMatch | prompting.py:167-173 | with no `output_text` and no text part, the result is `""` |
| Adapters.ExtractOutputText | prompting.py:162-173 | the nested loops with early return compute `OutputText` |
| Adapters.BuildGeminiParts | prompting.py:183-191 | one byte part per image, in order, with the image's MIME type or `image/png` |
| Adapters.GeminiOutcomes | prompting.py:193-214 | Gemini failures are `RuntimeError`s naming Gemini or unconverted JSON errors; successes are well formed |
| Adapters.CallGemini | prompting.py:176-214 | the adapter computes `GeminiResult`: transport errors become `Gemini API error: ...`, an empty reply `Gemini response was empty.`, else the parsed reply |
| Adapters.BuildUserContent | prompting.py:227-243 | one `input_image` part per image, in order, with a base64 data URL and detail `high`, then exactly one `input_text` part |
| Adapters.UserContentKinds | prompting.py:227-243 | image parts are exactly the first `|images|` parts and the text part is exactly the last |
| Adapters.TransportMessage | prompting.py:262-272 | the message opens with the provider label and ` API HTTP`, ends with the exception text, and has neither status nor body segment when neither is present |
| Adapters.CallOpenAiCompatible | prompting.py:217-282 | the adapter computes `OpenAiResult`: system and user messages, `store=False`, a 60-second timeout, the labelled transport error, `No response from <label> model.`, and the parsed reply |
| Adapters.TemperatureRange | prompting.py:296 | creativity 0 gives 0.2, 1 gives 0.8 and absent gives 0.5; a level in [0, 1] gives a temperature in [0.2, 0.8]; the mapping is strictly increasing |
| Adapters.GeneratePrompt | prompting.py:285-335 | the dispatch computes `Generated` |
| Adapters.GeneratedDispatch | prompting.py:308-333 | the result is `ValueError("Unsupported provider selected.")` exactly for providers other than the three; every result is well formed |
| Adapters.ResponsesReplyExample | prompting.py:274-282 | an `output_text` holding `{"prompt":"a cat","negativePrompt":"blurry"}` yields exactly that pair |
| Adapters.MalformedReplyFails | prompting.py:278 | a non-JSON reply fails with the decoder's error instead of yielding a partial result |
| Handlers.IndexSelection | main.py:52-53 | `index` preselects the first family and its first checkpoint: `sd15` and `sd15_base` |
| Handlers.PartialSelection | main.py:69-70 | the selected family is a catalog family and the checkpoint is its first |
| Handlers.PartialSelectionFallback | main.py:69 | a known id selects its own family; an unknown id selects what `index` does |
| Handlers.SelectedCheckpoint | main.py:157-159 | the checkpoint with the requested id when the family has it, otherwise the family's first |
| Handlers.NoneIfEmpty | main.py:179-181 | an empty selection becomes `None`, a non-empty one is kept |
| Handlers.AuxiliaryNormalisation | main.py:178-182 | normalising the selections does not change the auxiliary notes or block |
| Handlers.HandleGenerate | main.py:122-234 | every error page carries one of the four messages: the upload error, `Invalid model configuration.`, the generic failure, or the missing-key message |
| Handlers.WithCheckpoint | main.py:161-218 | past the family check, an error page is the missing-key message or the generic failure |
| Handlers.GenerationOutcome | main.py:201-225 | with images, a known family and a resolved key, any failure of `generate_prompt` gives `Failed to generate prompt. Please try again.`, and a result gives its prompt, negative prompt and the family and checkpoint labels |
| Handlers.CheckOrder | main.py:137-170 | no images gives the upload error; an unknown family gives `Invalid model configuration.` whatever the key file, environment or providers; no key gives the missing-key message whatever the providers |
| Handlers.NoImagesFirst | main.py:137-145 | without images, nothing else in the form matters |
| Handlers.HandleFoundFamily | main.py:147-161 | with images and a known family, the handler proceeds with the selected checkpoint |
| Handlers.CheckpointFallback | main.py:157-159 | an unknown checkpoint id is handled exactly as if the family's first checkpoint had been selected |
| Handlers.UnknownProvider | main.py:161-170 | for a provider outside the three, no explicit key gives `... enter your selected API Key.` and an explicit key gives the generic failure |
| Handlers.ResultPageFacts | main.py:201-225 | a result page needs images, a catalog family, one of its checkpoints, a resolved key and a known provider; its prompt is non-empty, and so is its negative prompt for `z_image` |

## Left out

- The vendor SDK calls are not modelled: `genai.Client(...).models.generate_content` and `OpenAI(...).responses.create`. They are the opaque `Services.generateContent` and `Services.createResponse`, which either return a reply or raise. The httpx timeout is recorded as the request's `timeoutSeconds`, with no timing behaviour.
- `base64.b64encode` and `json.loads` are the opaque `Services.base64` and `Services.parseJson`. Parsed JSON objects carry string values only, so a non-string `prompt` or `negativePrompt` is not modelled.
- The exception text `str(exc)` is an opaque description. The HTTP status code is a natural number.
- `Handlers.HandleGenerate` does not catch exceptions other than the ones the model names. An exception raised inside the catalog or compiler code cannot happen in the model.
- File and environment I/O are snapshots: `open`, `os.path.exists`, `os.environ`, `read_text` and `write_text`. Reading `UploadFile`s is likewise a snapshot: the images arrive as their bytes and content type. Encoding errors, concurrent writers and a file deleted between check and read are not modelled.
- Floating point: the temperature is computed in exact reals, so bit-level rounding of `0.2 + c * 0.6` is not captured.
- Unicode: strings are sequences of code points. `isspace` and the line-break set are exact, and there is no normalisation.
- Out of scope as plumbing with no stated behaviour: FastAPI routing, the Jinja2 templates and what they render, the static mount, the `uuid` instance id and `print` logging.
- `FOCUS_ASPECTS_LIST`, the VAE, upscaler and face-fixer lists are catalog constants in `Config`. The core looks nothing up in them.
- Adapters.TransportMessage: states the opening and closing of the message and the bare form, not the exact placement of the status and body segments between them.
- Handlers.HandleGenerate: `result.get("negativePrompt") or ""` is not modelled as a separate step. Every adapter result carries a negative-prompt string, so it leaves the value unchanged.
