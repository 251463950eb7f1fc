# spine-ai-pipeline, modelled in Dafny

This project models the deterministic core of the spine-ai-pipeline scripts, a
character-asset pipeline that turns a character description into a rigged, animated
Spine skeleton:

- `gen_illustration.py` builds a text-to-image prompt and request payload from a
  character config and chooses where the illustration goes (`illustration.dfy`).
- `split_parts.py` cuts the illustration into six body parts with a fixed proportional
  template and records their regions in `metadata.json` (`parts.dfy`).
- `rig_character.py` builds a flat Spine skeleton with one slot per part through a
  fixed part-to-bone table (`rig.dfy`).
- `animate_character.py` synthesises closed-form keyframe clips and merges them into
  the skeleton document's `animations` map (`animation.dfy`). The preset catalogue it
  shares with the rigger is in `presets.dfy`.
- `export_spine.py` copies the spine directory to a target and writes an asset
  manifest (`export.dfy`).
- `batch_generate.py` runs the four generating scripts for each character in turn,
  gating each stage on the previous stage's output path (`batch.dfy`).

`base.dfy` and `json.dfy` hold the shared vocabulary. `Option` is an optional value.
A `Path` is a list of path components. A `FileState` is a JSON file that is missing,
unparseable or present. A loaded JSON document is a `Json` value. Its objects are
association lists in insertion order, so `d[k] = v` replaces an existing key where it
stands and appends a new one, as a Python dict does. `pipeline.dfy` states properties
that span two scripts.

Keyframe times and crop regions are exact reals. `int()` on a region coordinate is
modelled as truncation toward zero. Sub-processes, the image service, the image library
and the filesystem are abstract inputs. The batch filesystem is a set of paths. A
directory to export is an ordered listing of `(name, entry)` pairs. A script run is a
function from the invocation and the visible paths to an exit status and the paths the
run creates.

Where a script raises on the inputs the model represents, the model has an explicit
failure outcome (`MergeFailed`, `RigFailed`, `SplitFailed`, `CopyFailed`, `ManifestCrash`,
`ConfigCrash`, `SdCrash`, `LoadCrash`, `PresetCrash`). Each outcome sits at the point where
the code raises. The exceptions the model does not represent are listed under
"Left out", notably failed writes.

Two behaviours of the code are worth knowing:

- The batch driver's default character id is `"unknown"`
  (`batch_generate.py:65`). The illustration script's default is `"char_unknown"`
  (`gen_illustration.py:96`). So for a record without `character_id`, the illustration is
  written where the driver never looks, and that character's later stages are not gated
  in by it. `Pipeline.IllustrationMeetsGate` states both cases.
- The rig placeholder service always fails, so `--use-api` changes nothing
  (`Rig.RigMain`). The batch driver never passes `--preset` to the rigger, so
  `"humanoid"` applies (`Pipeline.BatchRigPreset`). The batch driver accepts `--game`
  and never uses it.

## Model

| member | source | states |
|---|---|---|
| Base.NonEmpty | spine-ai-pipeline/scripts/gen_illustration.py:45 | `filter(None, …)` on strings keeps exactly the non-empty members and never adds any |
| Json.GetPut | spine-ai-pipeline/scripts/animate_character.py:128 | after `d[k] = v`, `k` reads back as `v` and every other key reads as before |
| Json.KeysPut | spine-ai-pipeline/scripts/animate_character.py:128 | `d[k] = v` keeps the key order: an existing key stays in place and a new key is appended last |
| Json.PutPut | spine-ai-pipeline/scripts/animate_character.py:128 | a second write to the same key overrides the first |
| Presets.LoadAnimationPreset | spine-ai-pipeline/scripts/animate_character.py:19-26 | a missing catalogue, missing `animations` map or unknown name gives `["idle"]`; a listed name gives its list; only a corrupt catalogue fails |
| Presets.LoadRigPreset | spine-ai-pipeline/scripts/rig_character.py:28-35 | a missing catalogue, missing `rig_types` map or unknown name gives the empty preset; a listed name gives its preset; only a corrupt catalogue fails |
| Animation.Generate | spine-ai-pipeline/scripts/animate_character.py:29-94 | for a duration d ≥ 0, every channel of every generator has at least two keyframes, starts at time 0, is non-decreasing in time and ends at d |
| Animation.GeneratorNames | spine-ai-pipeline/scripts/animate_character.py:97-112 | the generator table holds exactly the fourteen names |
| Animation.Aliases | spine-ai-pipeline/scripts/animate_character.py:97-112 | hit = surprised = idle(0.3), walk = run(0.8), move = run(0.5), talk = idle(0.5), gesture = attack(0.8); happy, sad = idle(1.0); attack1, attack2 = attack(0.5) |
| Animation.RunLegsMirrored | spine-ai-pipeline/scripts/animate_character.py:45-64 | in a run clip the leg_R keyframes have the leg_L times and the negated leg_L angles |
| Animation.AttackKeyframes | spine-ai-pipeline/scripts/animate_character.py:67-80 | the attack clip is exactly (0,0), (0.3d,−90), (0.5d,45), (d,0) on `arm_R.rotate`; with the default duration the times are 0, 0.15, 0.25 and 0.5 |
| Animation.KnownNames | spine-ai-pipeline/scripts/animate_character.py:124-131 | the `added` list holds exactly the requested names that are in the generator table |
| Animation.AddAnimationsToSpine | spine-ai-pipeline/scripts/animate_character.py:115-140 | the in-place loop produces exactly the merge outcome `MergeAnimations`: the written document and `added`, or failure where Python raises |
| Animation.MergeClipsLookup | spine-ai-pipeline/scripts/animate_character.py:125-129 | after the merge each known requested name holds its generated clip and every other animation keeps its old value |
| Animation.MergeClipsKeys | spine-ai-pipeline/scripts/animate_character.py:125-129 | the merge keeps the old animation keys as a prefix, adds exactly the known requested names, and creates no duplicate key |
| Animation.MergeEffect | spine-ai-pipeline/scripts/animate_character.py:121-131 | on an object document, `added` = the known names in request order, other top-level keys are unchanged, a missing `animations` map is created empty and appended last; with no known name the entry is left as it was (or `{}` when just created), otherwise the animations read as merged |
| Animation.MergeIdempotent | spine-ai-pipeline/scripts/animate_character.py:115-136 | merging the same request into the merged document gives the same document and `added` list again |
| Animation.MergeSequential | spine-ai-pipeline/scripts/animate_character.py:115-136 | merging xs and then ys equals merging xs + ys, with the two `added` lists concatenated (last write wins) |
| Animation.RequestedNames | spine-ai-pipeline/scripts/animate_character.py:162-165 | a non-empty `--animations` list overrides the preset; otherwise the preset lookup decides |
| Animation.AnimateMain | spine-ai-pipeline/scripts/animate_character.py:153-170 | nothing is done exactly when there is no skeleton file; otherwise the script dies exactly when it needs the preset catalogue and that catalogue is corrupt, and else always merges the requested names, so that on success `added` is their known part |
| Animation.IdleFallback | spine-ai-pipeline/scripts/animate_character.py:160-165 | with no override and no usable preset entry, exactly the idle clip is merged |
| Rig.MapPartToBone | spine-ai-pipeline/scripts/rig_character.py:70-81 | a part maps to "root" exactly when it is not in the table; head, body, arm_L and arm_R map to themselves, leg_L to thigh_L, leg_R to thigh_R and weapon to hand_R; the bone is always one of the table's bones or "root" |
| Rig.BonesOf | spine-ai-pipeline/scripts/rig_character.py:51-52 | the bones are the preset's names in order; a bone has no parent exactly when it is named "root"; every other bone's parent is "root" |
| Rig.GenerateSpineSkeleton | spine-ai-pipeline/scripts/rig_character.py:38-67 | fixed header; the bones are the preset's bones (default root, body, head); one slot per part in part order, whose name and attachment are the part name and whose bone comes from the table; no `parts` gives no slots |
| Rig.SkeletonJson | spine-ai-pipeline/scripts/rig_character.py:42-56 | the document has the keys skeleton, bones, slots, skins, animations in that order, with skins `{"default": {}}` and an empty `animations` map |
| Rig.LocalRig | spine-ai-pipeline/scripts/rig_character.py:91-120 | fails exactly when the metadata or catalogue is corrupt; on success it reports method "local", output `<output>/skeleton.json`, and the skeleton built from the metadata and the resolved preset: its bones are the listed preset's `bones`, or root, body, head when the catalogue is missing, the preset is unknown or has no `bones`; one slot per metadata part, bound by the part table; the counts are those lengths |
| Rig.GenerateLocal | spine-ai-pipeline/scripts/rig_character.py:91-120 | the sequential load, fall back, build and report produce exactly `LocalRig` |
| Rig.DefaultPresetFallback | spine-ai-pipeline/scripts/rig_character.py:98-99 | a missing catalogue or unknown preset yields the bones root, body, head |
| Rig.ResolvedPresetSameBones | spine-ai-pipeline/scripts/rig_character.py:98-99 | replacing an empty preset by `{"bones": [root, body, head]}` does not change the bones the skeleton gets |
| Rig.RigMain | spine-ai-pipeline/scripts/rig_character.py:133-149 | a missing parts directory does nothing; otherwise the result is the local generator's, with or without `--use-api`, for the preset given or "humanoid" |
| Parts.TemplateRegions | spine-ai-pipeline/scripts/split_parts.py:54-61 | six regions named head, body, arm_L, arm_R, leg_L, leg_R in that order, each inside [0,w]×[0,h] with left ≤ right and top ≤ bottom |
| Parts.CropStaysInCanvas | spine-ai-pipeline/scripts/split_parts.py:67 | truncating a region that lies on the canvas gives an integer box on the canvas |
| Parts.TemplateSplit | spine-ai-pipeline/scripts/split_parts.py:45-91 | fails only when the image cannot be opened; otherwise six records in template order, never weapon, file = name + ".png", each region exactly the template table's region for that part (on the canvas), crops their truncations, and metadata {source, "template", the same parts} |
| Parts.SplitManualTemplate | spine-ai-pipeline/scripts/split_parts.py:45-91 | the loop over the region table produces exactly `TemplateSplit`, writing one image per part and then `metadata.json` |
| Parts.SplitMain | spine-ai-pipeline/scripts/split_parts.py:102-117 | a missing image does nothing; komiko and sam fail tagged with their name and do not fall back; any other method, by default "template", runs the template |
| Export.RegularFiles | spine-ai-pipeline/scripts/export_spine.py:26-27 | exactly the regular files are selected (no folder, no file left out), in listing order |
| Export.CopyOutcome | spine-ai-pipeline/scripts/export_spine.py:20-36 | the copy succeeds with exactly the regular files' names unless a copy raises; a failure leaves the files before it copied |
| Export.CopySpineAssets | spine-ai-pipeline/scripts/export_spine.py:20-36 | the copy loop produces exactly `CopyOutcome`: the result and the target listing |
| Export.CopyIntoGet | spine-ai-pipeline/scripts/export_spine.py:28-29 | after copying, each copied name holds the source file and every other target entry is unchanged |
| Export.SkeletonAnimations | spine-ai-pipeline/scripts/export_spine.py:71-75 | without `skeleton.json` the list is empty; a folder of that name, unparseable text or a document that is not an object raises; a document without `animations` gives `[]`; an `animations` object gives its keys in order; any other `animations` value raises |
| Export.ManifestOutcome | spine-ai-pipeline/scripts/export_spine.py:53-81 | type "spine", the given id, one {name, size} per regular file listed before `manifest.json` is written, the skeleton's animation keys, and `manifest.json` written with nothing else changed; crashes exactly where reading the skeleton raises |
| Export.CreateManifest | spine-ai-pipeline/scripts/export_spine.py:53-81 | the listing loop and write produce exactly `ManifestOutcome` |
| Export.TargetDir | spine-ai-pipeline/scripts/export_spine.py:103-110 | `--output` first, then `<repos>/<game>/spine/<id>` (an empty id adds no component), then `<input>/export` |
| Export.ExportMain | spine-ai-pipeline/scripts/export_spine.py:93-135 | no spine directory aborts first; a copy failure aborts before the manifest; otherwise the manifest is built over the target; the thumbnail and optimise flags change nothing |
| Export.FreshExportManifest | spine-ai-pipeline/scripts/export_spine.py:63-68 | exporting into an empty target lists exactly the copied files with their sizes, in copy order |
| Illustration.GeneratePrompt | spine-ai-pipeline/scripts/gen_illustration.py:38-45 | the prompt is the ", "-join of "<style> style" (default "anime"), the description when non-empty, "expression: <emotion>" when the emotion is non-empty, and the fixed suffix |
| Illustration.PromptSegments | spine-ai-pipeline/scripts/gen_illustration.py:38-45 | the prompt segments are "<style> style", the description if non-empty, "expression: <emotion>" exactly when the emotion is non-empty, and the suffix |
| Illustration.PromptFrame | spine-ai-pipeline/scripts/gen_illustration.py:32-45 | every prompt begins with "<style> style" and ends with "high quality, detailed, game character" |
| Illustration.DefaultStylePrompt | spine-ai-pipeline/scripts/gen_illustration.py:34 | a config without a style gives a prompt beginning "anime style" |
| Illustration.Payload | spine-ai-pipeline/scripts/gen_illustration.py:50-58 | the payload keys in order, the prompt and the fixed negative prompt |
| Illustration.PayloadDefaults | spine-ai-pipeline/scripts/gen_illustration.py:50-58 | with no config or an empty one: steps 30, width and height 1024, cfg_scale 7, sampler "DPM++ 2M Karras" |
| Illustration.PayloadFromConfig | spine-ai-pipeline/scripts/gen_illustration.py:53-57 | with a non-empty config each setting is the config's value when present, with `sampler` feeding `sampler_name`, and the default per missing key |
| Illustration.ReadReply | spine-ai-pipeline/scripts/gen_illustration.py:60-80 | an image is saved exactly when the reply is an object with a non-empty `images` list, and it is the first image; a request error only reports failure |
| Illustration.IllustrationPath | spine-ai-pipeline/scripts/gen_illustration.py:103 | the image goes to `<output>/<id>/illustration.png` |
| Illustration.IllustrateMain | spine-ai-pipeline/scripts/gen_illustration.py:90-103 | usage exactly without config or prompt; a crash exactly when a given config cannot be read, is not an object, has a non-text `character_id`, or has a truthy non-text `description` that makes the prompt join raise; a config gives its `character_id` (default "char_unknown"), the generated prompt and the config payload; a direct prompt gives "char_manual" and the default payload |
| Batch.LoadCharactersJson | spine-ai-pipeline/scripts/batch_generate.py:34-40 | a top-level list is returned as is; an object gives its `characters` or `[]` |
| Batch.RunScript | spine-ai-pipeline/scripts/batch_generate.py:43-59 | a script succeeds exactly when it exits with code 0; a timeout or exception is failure |
| Batch.ConfigFields | spine-ai-pipeline/scripts/batch_generate.py:71-74 | `config.json` holds the record's entries, in order, as JSON strings |
| Batch.ProcessCharacter | spine-ai-pipeline/scripts/batch_generate.py:62-105 | the per-character steps produce exactly `Process` and always return true |
| Batch.ProcessEffect | spine-ai-pipeline/scripts/batch_generate.py:62-105 | config.json exists before the first script and is visible to every run; illustration runs first; each later stage runs only if its input exists; the part stage runs exactly when the illustration exists after the illustration script; animation runs exactly when `spine/` exists at the end; the preset defaults to "combat" |
| Batch.RunBatch | spine-ai-pipeline/scripts/batch_generate.py:136-149 | the loop's count and filesystem are those of `RunAll`, which handles records in input order, each completely before the next |
| Batch.CountIsProcessed | spine-ai-pipeline/scripts/batch_generate.py:140-149 | one skip-or-process decision per record, and the count equals the number processed |
| Batch.NoSkipCountsAll | spine-ai-pipeline/scripts/batch_generate.py:140-149 | without `--skip-existing` the count equals the number of records |
| Batch.SkipRule | spine-ai-pipeline/scripts/batch_generate.py:143-146 | record i is skipped exactly when `--skip-existing` is set and `<id>/spine` exists after the earlier records |
| Batch.BatchGated | spine-ai-pipeline/scripts/batch_generate.py:78-102 | every script run of the batch was gated on its input path existing, and none is the export script |
| Batch.BatchGrows | spine-ai-pipeline/scripts/batch_generate.py:62-105 | the batch never removes a path |
| Batch.StatusIrrelevant | spine-ai-pipeline/scripts/batch_generate.py:78-105 | exit statuses decide nothing: runs that create the same paths give the same count, filesystem and skip decisions |
| Batch.BatchMain | spine-ai-pipeline/scripts/batch_generate.py:120-151 | a missing input does nothing; ".csv" input is read as rows, where an unreadable file raises, and anything else as JSON, where a corrupt document raises; then the loop over all records |
| Pipeline.TemplateRigSlots | spine-ai-pipeline/scripts/rig_character.py:59-65 | rigging the template's metadata gives six slots bound to head, body, arm_L, arm_R, thigh_L, thigh_R, whatever the preset, never to root or hand_R |
| Pipeline.RigAnimateExport | spine-ai-pipeline/scripts/export_spine.py:71-75 | a freshly rigged skeleton, animated with any request and then exported, lists each known requested animation once and nothing else |
| Pipeline.IllustrationMeetsGate | spine-ai-pipeline/scripts/batch_generate.py:65-85 | with a `character_id` the illustration lands where the part stage looks; without one it goes under "char_unknown" while the driver looks under "unknown" |
| Pipeline.BatchRigPreset | spine-ai-pipeline/scripts/batch_generate.py:93-94 | the rig invocation has no `--preset` option, so the rigger's "humanoid" default applies |

## Left out

- Console output (`rich` console and progress bars) and the display constants of `utils.py`: they are UI with no logic.
- Command-line parsing, including argparse `choices`: arguments are already-parsed values, and a preset or method outside the choices is not excluded.
- Network and process I/O: the text-to-image HTTP request with its timeout and `SD_API_URL`, base64 decoding, and `subprocess.run` with its 300-second timeout. They appear only as abstract outcomes (`Response`, `ExitStatus` and the paths a run creates).
- The image library: opening, cropping and saving images. An image is its size, or `None` when it cannot be opened.
- Filesystem details: `glob` order (the listing order is an input), `stat` sizes (inputs), parent directories that `mkdir(parents=True)` creates, and write failures of images, `metadata.json`, `skeleton.json` or `manifest.json`: every write succeeds in the model. Some of these writes are outside any `try`. For example, a failed `manifest.json` write ends `export_spine.py` with a traceback rather than a failure result.
- JSON text. Documents are `Json` values. Duplicate keys and the exact text `json.dump` writes are not modelled.
- IEEE floating point: keyframe times and regions are exact reals. The unused `fps`/`frames` computation of the generators is dropped.
- Path strings: a character id or path component containing "/" or "." is not re-split as `pathlib` would split it.
- Parts.TemplateSplit: only a failure to open the image is a failure; exceptions from cropping or saving are not modelled.
- Presets.LoadAnimationPreset: the catalogue is typed, so a catalogue whose `animations` or `rig_types` value is not a dict (where `.get` would raise) is not representable.
- Rig.GenerateSpineSkeleton: metadata is typed, so a `parts` entry without `name` or a non-list `bones` value (where Python raises) is not representable.
- Illustration.GeneratePrompt: a non-string style, or a truthy non-string emotion, reads as absent, so the style is "anime" and no expression segment is added. Python formats it with `str()`, giving e.g. "5 style", "None style" or "expression: 5". A truthy non-string description, which makes the join raise, is modelled as `ConfigCrash` in `Illustration.IllustrateMain`.
- Illustration.PromptFrame: inherits the simplification of `Illustration.GeneratePrompt`. A non-string style frames the prompt as "anime style" rather than Python's `str()` of the value.
- Batch.RunBatch: character records have text values only (CSV rows, or JSON objects of strings). A non-string `character_id`, which would make the path join raise, is not representable. This includes the `None` that `csv.DictReader` puts in the missing fields of a short CSV row. The list it stores under the `None` key for a long row's extra fields is not representable either.
- Batch.LoadCharactersJson: a JSON document that is neither a list nor an object, where `.get` would raise, is not representable.
- Export.ExportMain: the target directory is taken to be distinct from the spine directory. Copying a file onto itself, or onto a folder of the same name in the target, is not modelled.
- Export.CopyOutcome: `mkdir` of the target cannot fail; a failing copy is given by its position among the files.
- Illustration.ReadReply: an `images` list whose first item is not valid base64 is treated as saved; the decode error it raises is not modelled.
- Batch.ProcessCharacter: creating the character directory and writing `config.json` always succeed. In the script a failure there is not caught and aborts the whole batch before the count is printed. Neither `Batch.ProcessCharacter` nor `Batch.RunBatch` has that abort outcome.
- Export.FreshExportManifest: the order of the file list is the model's convention that a new name is appended to the directory listing. `glob` on the target gives no order guarantee, so the script promises only the same files and sizes in some order.
- Illustration.ReadReply: a non-empty string `images` value gives `SdCrash`. In Python its first character is base64-decoded after being encoded as ASCII. A non-ASCII character raises. An ASCII character outside the base64 alphabet, or the padding character `=`, decodes to empty bytes, which are saved. A single alphabet character raises.
