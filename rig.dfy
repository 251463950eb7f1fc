/**
 * The fallback skeleton builder of `rig_character.py`: a flat bone list under "root",
 * one slot per part through a fixed part-to-bone table, a fixed header, and the local
 * generator that the script falls back to when the rigging service placeholder fails.
 */
module Rig {
  import opened Base
  import opened Json
  import opened Presets
  import opened Parts

  datatype Bone = Bone(name: string, parent: Option<string>)

  datatype Slot = Slot(name: string, bone: string, attachment: string)

  /** The `skeleton` header record. */
  datatype Header = Header(hash: string, spine: string, x: int, y: int, width: int, height: int)

  /**
   * A generated skeleton document. Its `skins` entry is always `{"default": {}}` and its
   * `animations` entry always `{}`; both are added by `SkeletonJson`.
   */
  datatype Skeleton = Skeleton(header: Header, bones: seq<Bone>, slots: seq<Slot>)

  const FixedHeader := Header("", "4.1", 0, 0, 512, 512)

  /** The bones used when a preset lists none. */
  const DefaultBones: seq<string> := ["root", "body", "head"]

  /** The `--preset` default of the script. */
  const DefaultRigPresetName := "humanoid"

  /** The `mapping` table of `_map_part_to_bone`. */
  const PartBones: map<string, string> := map[
    "head" := "head", "body" := "body", "arm_L" := "arm_L", "arm_R" := "arm_R",
    "leg_L" := "thigh_L", "leg_R" := "thigh_R", "weapon" := "hand_R"
  ]

  /**
   * `_map_part_to_bone`: the table's bone, else "root". The bone list is accepted and
   * ignored, so a slot may name a bone the skeleton does not have.
   */
  function MapPartToBone(partName: string, bones: seq<string>): (b: string)
    ensures b == "root" <==> partName !in PartBones
    ensures b in {"head", "body", "arm_L", "arm_R", "thigh_L", "thigh_R", "hand_R", "root"}
    ensures partName in {"head", "body", "arm_L", "arm_R"} ==> b == partName
    ensures partName == "leg_L" ==> b == "thigh_L"
    ensures partName == "leg_R" ==> b == "thigh_R"
    ensures partName == "weapon" ==> b == "hand_R"
  {
    if partName in PartBones then PartBones[partName] else "root"
  }

  /** `rig_preset.get("bones", ["root", "body", "head"])`. */
  function PresetBones(p: RigPreset): seq<string>
  {
    p.bones.GetOr(DefaultBones)
  }

  /** The bone list comprehension: every bone not named "root" hangs off "root". */
  function BonesOf(names: seq<string>): (r: seq<Bone>)
    ensures |r| == |names|
    ensures forall i :: 0 <= i < |r| ==>
      && r[i].name == names[i]
      && (r[i].parent.None? <==> names[i] == "root")
      && (r[i].parent.Some? ==> r[i].parent.value == "root")
  {
    seq(|names|, i requires 0 <= i < |names| => Bone(names[i], if names[i] != "root" then Some("root") else None))
  }

  function SlotFor(part: PartRecord, bones: seq<string>): Slot
  {
    Slot(part.name, MapPartToBone(part.name, bones), part.name)
  }

  /** The skeleton `generate_spine_skeleton` builds; a metadata without `parts` has no parts. */
  function SkeletonOf(meta: PartsMetadata, preset: RigPreset): Skeleton
  {
    var bones := PresetBones(preset);
    var parts := meta.parts.GetOr([]);
    Skeleton(FixedHeader, BonesOf(bones), seq(|parts|, i requires 0 <= i < |parts| => SlotFor(parts[i], bones)))
  }

  /** `generate_spine_skeleton`: the bones by comprehension, then one slot appended per part. */
  method GenerateSpineSkeleton(meta: PartsMetadata, preset: RigPreset) returns (sk: Skeleton)
    ensures sk == SkeletonOf(meta, preset)
    ensures sk.header == FixedHeader
    ensures |sk.bones| == |PresetBones(preset)|
    ensures forall i :: 0 <= i < |sk.bones| ==> sk.bones[i].name == PresetBones(preset)[i]
    ensures |sk.slots| == |meta.parts.GetOr([])|
    ensures forall i :: 0 <= i < |sk.slots| ==>
      var part := meta.parts.GetOr([])[i];
      && sk.slots[i].name == sk.slots[i].attachment == part.name
      && sk.slots[i].bone == MapPartToBone(part.name, PresetBones(preset))
  {
    var bones := PresetBones(preset);
    var parts := meta.parts.GetOr([]);
    var slots: seq<Slot> := [];
    var i := 0;
    while i < |parts|
      invariant 0 <= i <= |parts|
      invariant |slots| == i
      invariant forall j :: 0 <= j < i ==> slots[j] == SlotFor(parts[j], bones)
    {
      var part := parts[i];
      slots := slots + [Slot(part.name, MapPartToBone(part.name, bones), part.name)];
      i := i + 1;
    }
    sk := Skeleton(FixedHeader, BonesOf(bones), slots);
  }

  // ---------------------------------------------------------------------------------
  // The document written to skeleton.json.

  function BoneJson(b: Bone): Json
  {
    Obj([("name", Str(b.name)), ("parent", if b.parent.Some? then Str(b.parent.value) else Null)])
  }

  function SlotJson(s: Slot): Json
  {
    Obj([("name", Str(s.name)), ("bone", Str(s.bone)), ("attachment", Str(s.attachment))])
  }

  function HeaderJson(h: Header): Json
  {
    Obj([("hash", Str(h.hash)), ("spine", Str(h.spine)), ("x", Num(h.x as real)), ("y", Num(h.y as real)),
         ("width", Num(h.width as real)), ("height", Num(h.height as real))])
  }

  function SkeletonJson(sk: Skeleton): (j: Json)
    ensures j.Obj? && Keys(j.fields) == ["skeleton", "bones", "slots", "skins", "animations"]
    ensures Get(j.fields, "skins") == Some(Obj([("default", Obj([]))]))
    ensures Get(j.fields, "animations") == Some(Obj([]))
  {
    var fields := [
      ("skeleton", HeaderJson(sk.header)),
      ("bones", Arr(seq(|sk.bones|, i requires 0 <= i < |sk.bones| => BoneJson(sk.bones[i])))),
      ("slots", Arr(seq(|sk.slots|, i requires 0 <= i < |sk.slots| => SlotJson(sk.slots[i])))),
      ("skins", Obj([("default", Obj([]))])),
      ("animations", Obj([]))
    ];
    assert Get(fields, "skins") == Get(fields[1..], "skins") == Get(fields[2..], "skins") == Get(fields[3..], "skins");
    assert Get(fields, "animations") == Get(fields[1..], "animations") == Get(fields[2..], "animations")
        == Get(fields[3..], "animations") == Get(fields[4..], "animations");
    Obj(fields)
  }

  // ---------------------------------------------------------------------------------
  // `generate_local` and `main`.

  /** `if not rig_preset: rig_preset = {"bones": ["root", "body", "head"]}`. */
  function ResolvedPreset(p: RigPreset): RigPreset
  {
    if p.IsEmpty() then RigPreset(Some(DefaultBones), {}) else p
  }

  /** `load_parts_metadata` for a readable file: a missing file reads as `{}`. */
  function LoadedMetadata(metadata: FileState<PartsMetadata>): PartsMetadata
    requires !metadata.Corrupt?
  {
    if metadata.Present? then metadata.doc else PartsMetadata(None, None, None)
  }

  /**
   * The bone names a rig gets: the `bones` of the named preset when the catalogue lists
   * it with that key, otherwise `root, body, head`.
   */
  function ListedBones(store: FileState<PresetStore>, preset: string): seq<string>
  {
    if store.Present? && store.doc.rigTypes.Some? && preset in store.doc.rigTypes.value
       && store.doc.rigTypes.value[preset].bones.Some?
    then store.doc.rigTypes.value[preset].bones.value
    else DefaultBones
  }

  datatype RigReport =
    | RigDone(methodName: string, output: Path, boneCount: nat, slotCount: nat, skeleton: Skeleton)
    | RigFailed

  /**
   * What `generate_local` reports: failure where loading raises (a corrupt metadata file
   * or preset catalogue), otherwise the skeleton it wrote to `<output>/skeleton.json`
   * and its bone and slot counts.
   */
  function LocalRig(metadata: FileState<PartsMetadata>, store: FileState<PresetStore>,
                    preset: string, outputDir: Path): (r: RigReport)
    ensures r.RigFailed? <==> metadata.Corrupt? || store.Corrupt?
    ensures r.RigDone? ==>
      && r.methodName == "local"
      && r.output == outputDir + ["skeleton.json"]
      && r.boneCount == |r.skeleton.bones|
      && r.slotCount == |r.skeleton.slots|
      && r.skeleton == SkeletonOf(LoadedMetadata(metadata), ResolvedPreset(LoadRigPreset(store, preset).value))
      && var names := ListedBones(store, preset);
      && r.boneCount == |names|
      && (forall i :: 0 <= i < |names| ==> r.skeleton.bones[i].name == names[i])
      && var parts := LoadedMetadata(metadata).parts.GetOr([]);
      && r.slotCount == |parts|
      && (forall i :: 0 <= i < |parts| ==>
            r.skeleton.slots[i] == Slot(parts[i].name, MapPartToBone(parts[i].name, names), parts[i].name))
  {
    if metadata.Corrupt? then RigFailed
    else
      match LoadRigPreset(store, preset)
      case None => RigFailed
      case Some(p) =>
        var sk := SkeletonOf(LoadedMetadata(metadata), ResolvedPreset(p));
        RigDone("local", outputDir + ["skeleton.json"], |sk.bones|, |sk.slots|, sk)
  }

  /** `generate_local`: load, fall back to the default preset, build, write, report. */
  method GenerateLocal(metadata: FileState<PartsMetadata>, store: FileState<PresetStore>,
                       preset: string, outputDir: Path) returns (r: RigReport)
    ensures r == LocalRig(metadata, store, preset, outputDir)
  {
    if metadata.Corrupt? {
      return RigFailed;
    }
    var partsMetadata := LoadedMetadata(metadata);
    var rigPreset := LoadRigPreset(store, preset);
    if rigPreset.None? {
      return RigFailed;
    }
    var p := rigPreset.value;
    if p.IsEmpty() {
      p := RigPreset(Some(DefaultBones), {});
    }
    var skeleton := GenerateSpineSkeleton(partsMetadata, p);
    var jsonPath := outputDir + ["skeleton.json"];
    r := RigDone("local", jsonPath, |skeleton.bones|, |skeleton.slots|, skeleton);
  }

  /**
   * The fallback for an empty or unknown preset changes nothing in the output: the bones
   * are `root, body, head` either way.
   */
  lemma DefaultPresetFallback(store: FileState<PresetStore>, preset: string)
    requires !store.Corrupt?
    requires store.Missing? || store.doc.rigTypes.None? || preset !in store.doc.rigTypes.value
    ensures PresetBones(ResolvedPreset(LoadRigPreset(store, preset).value)) == DefaultBones
  {
  }

  lemma ResolvedPresetSameBones(p: RigPreset)
    ensures PresetBones(ResolvedPreset(p)) == PresetBones(p)
  {
  }

  /** The parsed command line of the script. */
  datatype RigArgs = RigArgs(input: Path, output: Path, preset: Option<string>, useApi: bool)

  function EffectivePreset(args: RigArgs): string
  {
    args.preset.GetOr(DefaultRigPresetName)
  }

  /** `call_spine_ai_api`: a placeholder whose reply is always `{"success": False, "method": "api"}`. */
  datatype ApiReply = ApiReply(success: bool, methodName: string)

  const SpineAiApiReply := ApiReply(false, "api")

  datatype RigOutcome = PartsDirMissing | Rigged(report: RigReport)

  /**
   * `main`: nothing without the parts directory; otherwise the local generator's report,
   * whether or not `--use-api` was given (the service placeholder always fails).
   */
  method RigMain(args: RigArgs, partsDirExists: bool, metadata: FileState<PartsMetadata>,
                 store: FileState<PresetStore>) returns (o: RigOutcome)
    ensures !partsDirExists ==> o == PartsDirMissing
    ensures partsDirExists ==> o == Rigged(LocalRig(metadata, store, EffectivePreset(args), args.output))
  {
    if !partsDirExists {
      return PartsDirMissing;
    }
    var preset := EffectivePreset(args);
    var report: RigReport;
    if args.useApi {
      var reply := SpineAiApiReply;
      report := RigFailed;
      if !reply.success {
        report := GenerateLocal(metadata, store, preset, args.output);
      }
    } else {
      report := GenerateLocal(metadata, store, preset, args.output);
    }
    o := Rigged(report);
  }
}
