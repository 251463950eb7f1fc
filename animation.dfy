/**
 * The procedural animation synthesiser of `animate_character.py`: four closed-form
 * keyframe generators, the name table with its fixed-duration aliases, the preset
 * lookup, and the merge of generated clips into an existing skeleton document.
 * Keyframe times are exact reals rather than IEEE doubles.
 */
module Animation {
  import opened Base
  import opened Json
  import opened Presets

  datatype Keyframe = Keyframe(time: real, angle: real)

  /** One animated property of a bone (the generators only use "rotate"). */
  datatype Channel = Channel(name: string, keys: seq<Keyframe>)

  datatype Track = Track(bone: string, channels: seq<Channel>)

  /** An animation clip: `{"bones": {bone: {channel: [keyframe, ...]}}}`. */
  datatype Clip = Clip(tracks: seq<Track>)

  datatype Kind = Idle | Run | Attack | Die

  /** A generator call: which curve, and the duration it is called with. */
  datatype Generator = Generator(kind: Kind, duration: real)

  /** The default `duration` argument of each generator. */
  function DefaultDuration(k: Kind): real
  {
    match k
    case Idle => 1.0
    case Run => 0.6
    case Attack => 0.5
    case Die => 1.0
  }

  function RotateTrack(bone: string, keys: seq<Keyframe>): Track
  {
    Track(bone, [Channel("rotate", keys)])
  }

  /** `generate_idle_animation`: the body sways 0 -> 2 -> 0 degrees. */
  function IdleClip(d: real): Clip
  {
    Clip([RotateTrack("body", [Keyframe(0.0, 0.0), Keyframe(d / 2.0, 2.0), Keyframe(d, 0.0)])])
  }

  /** `generate_run_animation`: the two legs swing in opposition. */
  function RunClip(d: real): Clip
  {
    Clip([
      RotateTrack("leg_L", [Keyframe(0.0, -30.0), Keyframe(d / 2.0, 30.0), Keyframe(d, -30.0)]),
      RotateTrack("leg_R", [Keyframe(0.0, 30.0), Keyframe(d / 2.0, -30.0), Keyframe(d, 30.0)])
    ])
  }

  /** `generate_attack_animation`: wind-up, strike, recoil, rest on the right arm. */
  function AttackClip(d: real): Clip
  {
    Clip([RotateTrack("arm_R", [Keyframe(0.0, 0.0), Keyframe(d * 0.3, -90.0),
                                Keyframe(d * 0.5, 45.0), Keyframe(d, 0.0)])])
  }

  /** `generate_die_animation`: the root tips over by 90 degrees. */
  function DieClip(d: real): Clip
  {
    Clip([RotateTrack("root", [Keyframe(0.0, 0.0), Keyframe(d, 90.0)])])
  }

  /** A channel starts at time 0, never goes back in time, and ends at `d`. */
  predicate ChannelTimed(keys: seq<Keyframe>, d: real)
  {
    && |keys| >= 2
    && keys[0].time == 0.0
    && keys[|keys| - 1].time == d
    && forall i :: 0 <= i < |keys| - 1 ==> keys[i].time <= keys[i + 1].time
  }

  predicate WellTimed(c: Clip, d: real)
  {
    forall t, ch :: t in c.tracks && ch in t.channels ==> ChannelTimed(ch.keys, d)
  }

  /** Runs one generator; for a non-negative duration every channel spans exactly [0, duration]. */
  function Generate(g: Generator): (c: Clip)
    ensures g.duration >= 0.0 ==> WellTimed(c, g.duration)
    ensures c.tracks != [] && forall t :: t in c.tracks ==> |t.channels| == 1
  {
    match g.kind
    case Idle => IdleClip(g.duration)
    case Run => RunClip(g.duration)
    case Attack => AttackClip(g.duration)
    case Die => DieClip(g.duration)
  }

  /** `ANIMATION_GENERATORS`: every name the synthesiser knows, with the call it stands for. */
  const Generators: map<string, Generator> := map[
    "idle" := Generator(Idle, DefaultDuration(Idle)),
    "run" := Generator(Run, DefaultDuration(Run)),
    "attack" := Generator(Attack, DefaultDuration(Attack)),
    "attack1" := Generator(Attack, DefaultDuration(Attack)),
    "attack2" := Generator(Attack, DefaultDuration(Attack)),
    "hit" := Generator(Idle, 0.3),
    "die" := Generator(Die, DefaultDuration(Die)),
    "walk" := Generator(Run, 0.8),
    "talk" := Generator(Idle, 0.5),
    "gesture" := Generator(Attack, 0.8),
    "move" := Generator(Run, 0.5),
    "happy" := Generator(Idle, DefaultDuration(Idle)),
    "sad" := Generator(Idle, DefaultDuration(Idle)),
    "surprised" := Generator(Idle, 0.3)
  ]

  /** `ANIMATION_GENERATORS.get(name)` followed by the call. */
  function ClipFor(name: string): Option<Clip>
  {
    if name in Generators then Some(Generate(Generators[name])) else None
  }

  /** The table holds exactly fourteen names. */
  lemma GeneratorNames()
    ensures Generators.Keys == {"idle", "run", "attack", "attack1", "attack2", "hit", "die",
                                "walk", "talk", "gesture", "move", "happy", "sad", "surprised"}
  {
  }

  /** The alias names stand for the base generators at the stated durations. */
  lemma Aliases()
    ensures Generators["hit"] == Generators["surprised"] == Generator(Idle, 0.3)
    ensures Generators["walk"] == Generator(Run, 0.8) && Generators["move"] == Generator(Run, 0.5)
    ensures Generators["talk"] == Generator(Idle, 0.5) && Generators["gesture"] == Generator(Attack, 0.8)
    ensures Generators["happy"] == Generators["sad"] == Generators["idle"] == Generator(Idle, 1.0)
    ensures Generators["attack1"] == Generators["attack2"] == Generators["attack"] == Generator(Attack, 0.5)
    ensures Generators["run"] == Generator(Run, 0.6) && Generators["die"] == Generator(Die, 1.0)
  {
  }

  /** In a run cycle the right leg mirrors the left one at the same times. */
  lemma RunLegsMirrored(d: real)
    ensures var c := RunClip(d);
      && |c.tracks| == 2 && c.tracks[0].bone == "leg_L" && c.tracks[1].bone == "leg_R"
      && var l, r := c.tracks[0].channels[0].keys, c.tracks[1].channels[0].keys;
      && |l| == |r|
      && forall i :: 0 <= i < |l| ==> r[i].time == l[i].time && r[i].angle == -l[i].angle
  {
  }

  /** The attack strikes at 30% and recoils at 50% of its duration, on the right arm only. */
  lemma AttackKeyframes(d: real)
    ensures AttackClip(d).tracks == [Track("arm_R", [Channel("rotate",
              [Keyframe(0.0, 0.0), Keyframe(0.3 * d, -90.0), Keyframe(0.5 * d, 45.0), Keyframe(d, 0.0)])])]
    ensures ClipFor("attack") == Some(Clip([Track("arm_R", [Channel("rotate",
              [Keyframe(0.0, 0.0), Keyframe(0.15, -90.0), Keyframe(0.25, 45.0), Keyframe(0.5, 0.0)])])]))
  {
  }

  // ---------------------------------------------------------------------------------
  // The clip as it is written into the skeleton document.

  function KeyframeJson(k: Keyframe): Json
  {
    Obj([("time", Num(k.time)), ("angle", Num(k.angle))])
  }

  function ChannelJson(ch: Channel): (string, Json)
  {
    (ch.name, Arr(seq(|ch.keys|, i requires 0 <= i < |ch.keys| => KeyframeJson(ch.keys[i]))))
  }

  function TrackJson(t: Track): (string, Json)
  {
    (t.bone, Obj(seq(|t.channels|, i requires 0 <= i < |t.channels| => ChannelJson(t.channels[i]))))
  }

  function ClipJson(c: Clip): Json
  {
    Obj([("bones", Obj(seq(|c.tracks|, i requires 0 <= i < |c.tracks| => TrackJson(c.tracks[i]))))])
  }

  /** What `spine_data["animations"][name] = generator()` stores for a known name. */
  function ClipJsonFor(name: string): Json
    requires name in Generators
  {
    ClipJson(Generate(Generators[name]))
  }

  // ---------------------------------------------------------------------------------
  // Merging generated clips into a skeleton document (`add_animations_to_spine`).

  /** The requested names the table knows, in request order (the `added` list). */
  function KnownNames(names: seq<string>): (r: seq<string>)
    ensures |r| <= |names|
    ensures forall n :: n in r <==> n in names && n in Generators
  {
    if names == [] then []
    else
      var init, last := names[..|names| - 1], names[|names| - 1];
      assert names == init + [last];
      KnownNames(init) + (if last in Generators then [last] else [])
  }

  /** The animations map after writing the clip of every known name, in request order. */
  function MergeClips(anims: seq<(string, Json)>, names: seq<string>): seq<(string, Json)>
  {
    if names == [] then anims
    else
      var prev := MergeClips(anims, names[..|names| - 1]);
      var last := names[|names| - 1];
      if last in Generators then Put(prev, last, ClipJsonFor(last)) else prev
  }

  /**
   * Python's `"animations" in spine_data` on whatever the document is: key membership
   * for an object, element membership for a list, substring for a string; None where
   * the test itself raises (numbers, booleans, null).
   */
  function HasAnimations(doc: Json): Option<bool>
  {
    match doc
    case Obj(fields) => Some(HasKey(fields, "animations"))
    case Arr(items) => Some(Str("animations") in items)
    case Str(s) => Some(IsSubstring("animations", s))
    case _ => None
  }

  /** `spine_data["animations"]` when the document is an object holding that key. */
  function AnimationsEntry(doc: Json): Option<Json>
  {
    if doc.Obj? then Get(doc.fields, "animations") else None
  }

  datatype MergeResult = Merged(doc: Json, added: seq<string>) | MergeFailed

  /**
   * The outcome of `add_animations_to_spine`: the document it writes back and the
   * `added` list, or failure where the Python code raises (unreadable file, a document
   * or `animations` entry that is not a dict when a known name must be stored in it).
   */
  function MergeAnimations(file: FileState<Json>, names: seq<string>): MergeResult
  {
    if !file.Present? then MergeFailed
    else
      var has := HasAnimations(file.doc);
      if has.None? || (!has.value && !file.doc.Obj?) then MergeFailed
      else
        var doc := if has.value then file.doc else Obj(file.doc.fields + [("animations", Obj([]))]);
        var known := KnownNames(names);
        var entry := AnimationsEntry(doc);
        if known == [] then Merged(doc, [])
        else if entry.Some? && entry.value.Obj? then
          Merged(Obj(Put(doc.fields, "animations", Obj(MergeClips(entry.value.fields, names)))), known)
        else MergeFailed
  }

  lemma {:induction false} NoKnownNoChange(anims: seq<(string, Json)>, names: seq<string>)
    requires KnownNames(names) == []
    ensures MergeClips(anims, names) == anims
  {
    if names != [] {
      NoKnownNoChange(anims, names[..|names| - 1]);
    }
  }

  /** `add_animations_to_spine`: mutates the loaded document entry by entry. */
  method AddAnimationsToSpine(file: FileState<Json>, names: seq<string>) returns (r: MergeResult)
    ensures r == MergeAnimations(file, names)
  {
    if !file.Present? {
      return MergeFailed;
    }
    var doc := file.doc;
    var has := HasAnimations(doc);
    if has.None? {
      return MergeFailed;
    }
    if !has.value {
      if !doc.Obj? {
        return MergeFailed;
      }
      doc := Obj(doc.fields + [("animations", Obj([]))]);
    }
    ghost var doc0 := doc;
    var added: seq<string> := [];
    var i := 0;
    while i < |names|
      invariant 0 <= i <= |names|
      invariant added == KnownNames(names[..i])
      invariant added == [] ==> doc == doc0
      invariant added != [] ==>
        && AnimationsEntry(doc0).Some? && AnimationsEntry(doc0).value.Obj?
        && doc == Obj(Put(doc0.fields, "animations",
                          Obj(MergeClips(AnimationsEntry(doc0).value.fields, names[..i]))))
    {
      var name := names[i];
      assert names[..i + 1] == names[..i] + [name];
      if name in Generators {
        assert name in KnownNames(names);
        if added == [] {
          if !(doc.Obj? && AnimationsEntry(doc).Some? && AnimationsEntry(doc).value.Obj?) {
            return MergeFailed;
          }
          NoKnownNoChange(AnimationsEntry(doc0).value.fields, names[..i]);
        }
        ghost var before := MergeClips(AnimationsEntry(doc0).value.fields, names[..i]);
        GetPut(doc0.fields, "animations", Obj(before), "animations");
        var anims := Get(doc.fields, "animations").value;
        assert anims == Obj(before);
        PutPut(doc0.fields, "animations", Obj(before), Obj(Put(anims.fields, name, ClipJsonFor(name))));
        doc := Obj(Put(doc.fields, "animations", Obj(Put(anims.fields, name, ClipJsonFor(name)))));
        added := added + [name];
      }
      i := i + 1;
    }
    assert names[..i] == names;
    r := Merged(doc, added);
  }

  // ---------------------------------------------------------------------------------
  // Properties of the merge.

  /** After the merge, every known requested name holds its generated clip; other entries keep theirs. */
  lemma {:induction false} MergeClipsLookup(anims: seq<(string, Json)>, names: seq<string>, k: string)
    ensures Get(MergeClips(anims, names), k) ==
            if k in KnownNames(names) then Some(ClipJsonFor(k)) else Get(anims, k)
  {
    if names != [] {
      var init, last := names[..|names| - 1], names[|names| - 1];
      MergeClipsLookup(anims, init, k);
      if last in Generators {
        GetPut(MergeClips(anims, init), last, ClipJsonFor(last), k);
      }
    }
  }

  /**
   * The merge keeps the existing entries in their order and only appends: the old key
   * list is a prefix of the new one, the new keys are exactly the known requested names,
   * and no key is duplicated.
   */
  lemma {:induction false} MergeClipsKeys(anims: seq<(string, Json)>, names: seq<string>)
    ensures Keys(anims) <= Keys(MergeClips(anims, names))
    ensures forall k :: k in Keys(MergeClips(anims, names)) <==> k in Keys(anims) || k in KnownNames(names)
    ensures Distinct(Keys(anims)) ==> Distinct(Keys(MergeClips(anims, names)))
  {
    if names != [] {
      var init, last := names[..|names| - 1], names[|names| - 1];
      MergeClipsKeys(anims, init);
      if last in Generators {
        KeysPut(MergeClips(anims, init), last, ClipJsonFor(last));
      }
    }
  }

  /** Merging names whose clips are already in place changes nothing. */
  lemma {:induction false} MergeClipsSettled(anims: seq<(string, Json)>, names: seq<string>)
    requires forall n :: n in KnownNames(names) ==> Get(anims, n) == Some(ClipJsonFor(n))
    ensures MergeClips(anims, names) == anims
  {
    if names != [] {
      var init, last := names[..|names| - 1], names[|names| - 1];
      MergeClipsSettled(anims, init);
      if last in Generators {
        assert last in KnownNames(names);
        PutUnchanged(anims, last, ClipJsonFor(last));
      }
    }
  }

  lemma {:induction false} KnownNamesConcat(xs: seq<string>, ys: seq<string>)
    ensures KnownNames(xs + ys) == KnownNames(xs) + KnownNames(ys)
  {
    if ys != [] {
      var init, last := ys[..|ys| - 1], ys[|ys| - 1];
      assert (xs + ys)[..|xs + ys| - 1] == xs + init;
      KnownNamesConcat(xs, init);
    } else {
      assert xs + ys == xs;
    }
  }

  lemma {:induction false} MergeClipsConcat(anims: seq<(string, Json)>, xs: seq<string>, ys: seq<string>)
    ensures MergeClips(anims, xs + ys) == MergeClips(MergeClips(anims, xs), ys)
  {
    if ys != [] {
      var init, last := ys[..|ys| - 1], ys[|ys| - 1];
      assert (xs + ys)[..|xs + ys| - 1] == xs + init;
      MergeClipsConcat(anims, xs, init);
    } else {
      assert xs + ys == xs;
    }
  }

  /** The entry `animations` held before the merge, or the empty map the merge creates. */
  function PriorAnimations(fields: seq<(string, Json)>): seq<(string, Json)>
  {
    var entry := Get(fields, "animations");
    if entry.Some? && entry.value.Obj? then entry.value.fields else []
  }

  /**
   * Merging into an object document: `added` is the known requested names in order,
   * every other top-level key is untouched, a missing `animations` map is appended empty,
   * each added name holds its generated clip and every other animation is unchanged.
   */
  lemma MergeEffect(fields: seq<(string, Json)>, names: seq<string>)
    requires MergeAnimations(Present(Obj(fields)), names).Merged?
    ensures var r := MergeAnimations(Present(Obj(fields)), names);
      && r.added == KnownNames(names)
      && r.doc.Obj?
      && (forall k :: k != "animations" ==> Get(r.doc.fields, k) == Get(fields, k))
      && Keys(r.doc.fields) == (if HasKey(fields, "animations") then Keys(fields) else Keys(fields) + ["animations"])
      && (r.added == [] ==>
            Get(r.doc.fields, "animations") ==
              if HasKey(fields, "animations") then Get(fields, "animations") else Some(Obj([])))
      && (r.added != [] ==>
            && Get(r.doc.fields, "animations").Some?
            && Get(r.doc.fields, "animations").value.Obj?
            && forall k :: Get(Get(r.doc.fields, "animations").value.fields, k) ==
                 if k in r.added then Some(ClipJsonFor(k)) else Get(PriorAnimations(fields), k))
  {
    var r := MergeAnimations(Present(Obj(fields)), names);
    var doc := if HasKey(fields, "animations") then Obj(fields) else Obj(fields + [("animations", Obj([]))]);
    GetSome(fields, "animations");
    forall k | k != "animations"
      ensures Get(doc.fields, k) == Get(fields, k)
    {
      if !HasKey(fields, "animations") {
        GetAppend(fields, "animations", Obj([]), k);
      }
    }
    if !HasKey(fields, "animations") {
      GetAppend(fields, "animations", Obj([]), "animations");
      assert Keys(doc.fields) == Keys(fields) + ["animations"];
    }
    if r.added != [] {
      var entry := AnimationsEntry(doc).value;
      assert entry.fields == PriorAnimations(fields);
      var merged := MergeClips(entry.fields, names);
      GetSome(doc.fields, "animations");
      KeysPut(doc.fields, "animations", Obj(merged));
      forall k | k != "animations"
        ensures Get(r.doc.fields, k) == Get(fields, k)
      {
        GetPut(doc.fields, "animations", Obj(merged), k);
      }
      GetPut(doc.fields, "animations", Obj(merged), "animations");
      forall k
        ensures Get(merged, k) == if k in r.added then Some(ClipJsonFor(k)) else Get(PriorAnimations(fields), k)
      {
        MergeClipsLookup(entry.fields, names, k);
      }
    }
  }

  /** Merging the same names a second time leaves the document exactly as the first merge did. */
  lemma MergeIdempotent(doc: Json, names: seq<string>)
    requires MergeAnimations(Present(doc), names).Merged?
    ensures var r := MergeAnimations(Present(doc), names);
            MergeAnimations(Present(r.doc), names) == r
  {
    var r := MergeAnimations(Present(doc), names);
    if doc.Obj? {
      var has := HasKey(doc.fields, "animations");
      var d0 := if has then doc else Obj(doc.fields + [("animations", Obj([]))]);
      if !has {
        GetAppend(doc.fields, "animations", Obj([]), "animations");
      }
      assert HasKey(d0.fields, "animations");
      if r.added != [] {
        var merged := MergeClips(AnimationsEntry(d0).value.fields, names);
        GetPut(d0.fields, "animations", Obj(merged), "animations");
        forall n | n in KnownNames(names)
          ensures Get(merged, n) == Some(ClipJsonFor(n))
        {
          MergeClipsLookup(AnimationsEntry(d0).value.fields, names, n);
        }
        MergeClipsSettled(merged, names);
        PutPut(d0.fields, "animations", Obj(merged), Obj(merged));
      }
    }
  }

  /**
   * Two merges in a row equal one merge of the concatenated request: the document ends
   * the same and `added` is the two lists joined (last write wins per name).
   */
  lemma MergeSequential(doc: Json, xs: seq<string>, ys: seq<string>)
    requires MergeAnimations(Present(doc), xs).Merged?
    requires MergeAnimations(Present(MergeAnimations(Present(doc), xs).doc), ys).Merged?
    ensures var r1 := MergeAnimations(Present(doc), xs);
            var r2 := MergeAnimations(Present(r1.doc), ys);
            MergeAnimations(Present(doc), xs + ys) == Merged(r2.doc, r1.added + r2.added)
  {
    var r1 := MergeAnimations(Present(doc), xs);
    var r2 := MergeAnimations(Present(r1.doc), ys);
    KnownNamesConcat(xs, ys);
    if doc.Obj? {
      var has := HasKey(doc.fields, "animations");
      var d0 := if has then doc else Obj(doc.fields + [("animations", Obj([]))]);
      if !has {
        GetAppend(doc.fields, "animations", Obj([]), "animations");
      }
      assert HasKey(d0.fields, "animations");
      var a0 := AnimationsEntry(d0);
      if KnownNames(xs) == [] {
        assert r1.doc == d0;
        if KnownNames(ys) != [] {
          NoKnownNoChange(a0.value.fields, xs);
          MergeClipsConcat(a0.value.fields, xs, ys);
        }
      } else {
        var m1 := MergeClips(a0.value.fields, xs);
        GetPut(d0.fields, "animations", Obj(m1), "animations");
        MergeClipsConcat(a0.value.fields, xs, ys);
        if KnownNames(ys) == [] {
          NoKnownNoChange(m1, ys);
        } else {
          PutPut(d0.fields, "animations", Obj(m1), Obj(MergeClips(m1, ys)));
        }
      }
    }
  }

  // ---------------------------------------------------------------------------------
  // The script entry point (`main`).

  datatype AnimateOutcome =
    | NoSkeleton                    // skeleton.json does not exist: nothing is done
    | PresetCrash                   // the preset catalogue cannot be parsed: the script dies
    | Finished(result: MergeResult) // the merge ran (and on success wrote its document back)

  /** The names to merge: the `--animations` list when one is given, else the preset's list. */
  function RequestedNames(override: Option<seq<string>>, preset: string, store: FileState<PresetStore>): (r: Option<seq<string>>)
    ensures override.Some? && override.value != [] ==> r == override
    ensures (override.None? || override.value == []) ==> r == LoadAnimationPreset(store, preset)
  {
    if override.Some? && override.value != [] then override else LoadAnimationPreset(store, preset)
  }

  /**
   * `main`: with `skeleton` the state of `<input>/skeleton.json`, `preset` the parsed
   * `--preset` (default "combat") and `override` the parsed `--animations`.
   */
  function AnimateMain(skeleton: FileState<Json>, preset: string, override: Option<seq<string>>,
                       store: FileState<PresetStore>): (o: AnimateOutcome)
    ensures o == NoSkeleton <==> skeleton.Missing?
    ensures !skeleton.Missing? && RequestedNames(override, preset, store).Some? ==> o.Finished?
    ensures o == PresetCrash <==> !skeleton.Missing? && store.Corrupt? && (override.None? || override.value == [])
    ensures o.Finished? ==> RequestedNames(override, preset, store).Some?
                            && o.result == MergeAnimations(skeleton, RequestedNames(override, preset, store).value)
    ensures o.Finished? && o.result.Merged? ==>
              o.result.added == KnownNames(RequestedNames(override, preset, store).value)
  {
    if skeleton.Missing? then NoSkeleton
    else
      match RequestedNames(override, preset, store)
      case None => PresetCrash
      case Some(names) => Finished(MergeAnimations(skeleton, names))
  }

  /** Without an override and without a usable preset entry, only the idle clip is merged. */
  lemma IdleFallback(skeleton: FileState<Json>, preset: string, store: FileState<PresetStore>)
    requires !skeleton.Missing? && !store.Corrupt?
    requires store.Missing? || store.doc.animations.None? || preset !in store.doc.animations.value
    ensures AnimateMain(skeleton, preset, None, store) == Finished(MergeAnimations(skeleton, ["idle"]))
  {
  }
}
