/**
 * Properties that span two scripts of the pipeline: what the rigger makes of the
 * template's parts, what the exporter lists after a rig and an animation pass, and how
 * the batch driver's paths and defaults meet those of the scripts it runs.
 */
module Pipeline {
  import opened Base
  import opened Json
  import opened Presets
  import opened Parts
  import opened Rig
  import opened Animation
  import opened Export
  import opened Illustration
  import opened Batch

  /** The slot bones a template split leads to, in part order. */
  const TemplateSlotBones: seq<string> := ["head", "body", "arm_L", "arm_R", "thigh_L", "thigh_R"]

  /** Parts named as the template names them become slots bound to the template's bones. */
  lemma TemplateNamedSlots(meta: PartsMetadata, preset: RigPreset)
    requires meta.parts.Some? && |meta.parts.value| == |TemplateParts|
    requires forall i :: 0 <= i < |meta.parts.value| ==> meta.parts.value[i].name == TemplateParts[i]
    ensures var sk := SkeletonOf(meta, preset);
            && |sk.slots| == |TemplateSlotBones|
            && (forall i :: 0 <= i < |sk.slots| ==>
                  sk.slots[i].name == TemplateParts[i] && sk.slots[i].bone == TemplateSlotBones[i])
            && (forall s :: s in sk.slots ==> s.bone != "root" && s.bone != "hand_R")
  {
    var sk := SkeletonOf(meta, preset);
    forall i | 0 <= i < |sk.slots|
      ensures sk.slots[i].name == TemplateParts[i] && sk.slots[i].bone == TemplateSlotBones[i]
    {
      assert sk.slots[i] == SlotFor(meta.parts.value[i], PresetBones(preset));
    }
    forall s | s in sk.slots ensures s.bone != "root" && s.bone != "hand_R" {
      var i :| 0 <= i < |sk.slots| && sk.slots[i] == s;
    }
  }

  /**
   * Rigging the template's metadata gives six slots, one per template part, bound to
   * head, body, arm_L, arm_R, thigh_L and thigh_R, whatever the preset; no slot is bound
   * to "root" or to the weapon's "hand_R".
   */
  lemma TemplateRigSlots(imagePath: Path, outputDir: Path, image: ImageSize, preset: RigPreset)
    ensures var split := TemplateSplit(imagePath, outputDir, Some(image));
            && split.SplitDone?
            && var sk := SkeletonOf(split.metadata, preset);
            && |sk.slots| == |TemplateSlotBones|
            && (forall i :: 0 <= i < |sk.slots| ==>
                  sk.slots[i].name == TemplateParts[i] && sk.slots[i].bone == TemplateSlotBones[i])
            && (forall s :: s in sk.slots ==> s.bone != "root" && s.bone != "hand_R")
  {
    var split := TemplateSplit(imagePath, outputDir, Some(image));
    assert split.metadata.parts == Some(split.parts);
    TemplateNamedSlots(split.metadata, preset);
  }

  /**
   * A freshly rigged skeleton, animated with any request, then exported: the merge
   * succeeds, and the manifest's animation list names each known requested animation
   * exactly once and nothing else.
   */
  lemma RigAnimateExport(sk: Skeleton, names: seq<string>, size: nat)
    ensures var r := MergeAnimations(Present(SkeletonJson(sk)), names);
            && r.Merged?
            && var listing: Listing := [("skeleton.json", File(size, Some(r.doc)))];
            && SkeletonAnimations(listing).Some?
            && var listed := SkeletonAnimations(listing).value;
            && Distinct(listed)
            && (forall n :: n in listed <==> n in KnownNames(names))
  {
    var doc := SkeletonJson(sk);
    var r := MergeAnimations(Present(doc), names);
    assert HasKey(doc.fields, "animations");
    var listing: Listing := [("skeleton.json", File(size, Some(r.doc)))];
    if KnownNames(names) != [] {
      var merged := MergeClips([], names);
      MergeClipsKeys([], names);
      GetPut(doc.fields, "animations", Obj(merged), "animations");
      assert Get(r.doc.fields, "animations") == Some(Obj(merged));
      assert SkeletonAnimations(listing) == Some(Keys(merged));
    } else {
      assert r.doc == doc;
      assert SkeletonAnimations(listing) == Some([]);
    }
  }

  /**
   * The config the batch driver writes reaches the illustration script's output path:
   * with a non-empty `character_id` the image lands where the part stage looks for it;
   * without one the driver looks under "unknown" while the image goes under "char_unknown",
   * so the part, rig and animation stages of that character are never gated in by it.
   */
  lemma IllustrationMeetsGate(rec: Batch.Record, output: Path, response: Response)
    ensures var dir := CharDir(output, CharId(rec));
            var o := IllustrateMain(IllustrateArgs(Some(PathText(dir + ["config.json"])), None, output),
                                    Present(Obj(ConfigFields(rec))), response);
            && o.Requested?
            && (HasKey(rec, "character_id") ==> o.outputPath == dir + ["illustration.png"])
            && (!HasKey(rec, "character_id") ==>
                  o.outputPath == output + ["char_unknown", "illustration.png"]
                  && dir + ["illustration.png"] == output + ["unknown", "illustration.png"])
  {
    ConfigFieldsGet(rec, "character_id");
    ConfigFieldsGet(rec, "description");
  }

  /**
   * The batch driver never passes a preset to the rigger, so the rigger's default
   * "humanoid" always applies to batch-rigged characters.
   */
  lemma BatchRigPreset(input: Path, output: Path)
    ensures var args := Argv(RigInv(input, output)).1;
            forall j :: 0 <= j < |args| && j % 2 == 0 ==> args[j] != "--preset"
    ensures EffectivePreset(RigArgs(input, output, None, false)) == "humanoid"
  {
  }
}
