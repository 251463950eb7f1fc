/**
 * The preset catalogue `config/presets.json`: named animation lists and named rig
 * presets. Both lookups fall back to a default instead of failing on an unknown name.
 */
module Presets {
  import opened Base

  /**
   * One entry of `rig_types`: its `bones` list if it has one, and the names of any other
   * keys (these matter only for Python's truthiness test on the dict).
   */
  datatype RigPreset = RigPreset(bones: Option<seq<string>>, otherKeys: set<string>) {
    /** `not rig_preset`: the dict has no keys at all. */
    predicate IsEmpty() {
      bones.None? && otherKeys == {}
    }
  }

  const EmptyRigPreset := RigPreset(None, {})

  /** The two top-level maps of the catalogue, each possibly absent. */
  datatype PresetStore = PresetStore(
    animations: Option<map<string, seq<string>>>,
    rigTypes: Option<map<string, RigPreset>>)

  const DefaultAnimations: seq<string> := ["idle"]

  /**
   * `load_animation_preset`: the catalogue's list for `name`, else `["idle"]`.
   * None stands for the exception `json.load` raises on a corrupt catalogue.
   */
  function LoadAnimationPreset(store: FileState<PresetStore>, name: string): (r: Option<seq<string>>)
    ensures r.None? <==> store.Corrupt?
    ensures r.Some? && r.value != DefaultAnimations ==>
              store.Present? && store.doc.animations.Some? && name in store.doc.animations.value
    ensures store.Present? && store.doc.animations.Some? && name in store.doc.animations.value ==>
              r == Some(store.doc.animations.value[name])
  {
    match store
    case Missing => Some(DefaultAnimations)
    case Corrupt => None
    case Present(s) =>
      var table := s.animations.GetOr(map[]);
      Some(if name in table then table[name] else DefaultAnimations)
  }

  /**
   * `load_rig_preset`: the catalogue's rig preset for `name`, else the empty preset `{}`.
   * None stands for the exception `json.load` raises on a corrupt catalogue.
   */
  function LoadRigPreset(store: FileState<PresetStore>, name: string): (r: Option<RigPreset>)
    ensures r.None? <==> store.Corrupt?
    ensures r.Some? && r.value != EmptyRigPreset ==>
              store.Present? && store.doc.rigTypes.Some? && name in store.doc.rigTypes.value
    ensures store.Present? && store.doc.rigTypes.Some? && name in store.doc.rigTypes.value ==>
              r == Some(store.doc.rigTypes.value[name])
  {
    match store
    case Missing => Some(EmptyRigPreset)
    case Corrupt => None
    case Present(s) =>
      var table := s.rigTypes.GetOr(map[]);
      Some(if name in table then table[name] else EmptyRigPreset)
  }
}
