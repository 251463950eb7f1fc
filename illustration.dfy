/**
 * Illustration requests of `gen_illustration.py`: the prompt built from a character
 * config, the text-to-image request payload with its defaults, the reading of the
 * service's reply, and the character id and output path chosen by `main`.
 */
module Illustration {
  import opened Base
  import opened Json

  /** A character config as loaded from `config.json`: the fields of a JSON object. */
  type Config = seq<(string, Json)>

  /** The fixed last segment of every prompt. */
  const PromptSuffix := "high quality, detailed, game character"

  const DefaultStyle := "anime"

  /** `config.get(key, default)` for a text setting. */
  function TextSetting(config: Config, key: string, default: string): string
  {
    var v := Get(config, key);
    if v.Some? && v.value.Str? then v.value.s else default
  }

  /** The four candidate segments of the prompt, before empty ones are dropped. */
  function PromptParts(style: string, description: string, emotion: string): seq<string>
  {
    [style + " style", description, if emotion != "" then "expression: " + emotion else "", PromptSuffix]
  }

  /**
   * `", ".join(...)` raises on a description that survives `filter(None, ...)` but is not
   * text: one that is present, truthy and not a string.
   */
  predicate PromptRaises(config: Config)
  {
    var d := Get(config, "description");
    d.Some? && Truthy(d.value) && !d.value.Str?
  }

  /**
   * `generate_prompt`: the style segment, the description when it is not empty, the
   * expression when the emotion is not empty, and the suffix, joined with ", ".
   */
  function GeneratePrompt(config: Config): (p: string)
    ensures var style := TextSetting(config, "style", DefaultStyle);
            var description := TextSetting(config, "description", "");
            var emotion := TextSetting(config, "emotion", "");
            p == Join([style + " style"]
                      + (if description != "" then [description] else [])
                      + (if emotion != "" then ["expression: " + emotion] else [])
                      + [PromptSuffix], ", ")
  {
    var style := TextSetting(config, "style", DefaultStyle);
    var description := TextSetting(config, "description", "");
    var emotion := TextSetting(config, "emotion", "");
    PromptSegments(style, description, emotion);
    Join(NonEmpty(PromptParts(style, description, emotion)), ", ")
  }

  /**
   * The segments that survive: the style segment, the description when it is not
   * empty, the expression when the emotion is not empty, and the suffix, in that order.
   */
  lemma {:induction false} PromptSegments(style: string, description: string, emotion: string)
    ensures NonEmpty(PromptParts(style, description, emotion))
         == [style + " style"]
          + (if description != "" then [description] else [])
          + (if emotion != "" then ["expression: " + emotion] else [])
          + [PromptSuffix]
  {
    var parts := PromptParts(style, description, emotion);
    var expression := if emotion != "" then "expression: " + emotion else "";
    assert parts[1..] == [description, expression, PromptSuffix];
    assert parts[1..][1..] == [expression, PromptSuffix];
    assert parts[1..][1..][1..] == [PromptSuffix];
    assert NonEmpty([PromptSuffix]) == [PromptSuffix] by {
      assert [PromptSuffix][1..] == [];
    }
    assert NonEmpty(parts[1..][1..]) == (if emotion != "" then [expression] else []) + [PromptSuffix];
  }

  /**
   * Every prompt begins with "<style> style" (style "anime" unless the config names one)
   * and ends with the fixed suffix.
   */
  lemma PromptFrame(config: Config)
    ensures var style := TextSetting(config, "style", DefaultStyle);
            var p := GeneratePrompt(config);
            && |style + " style"| <= |p| && p[..|style + " style"|] == style + " style"
            && |PromptSuffix| <= |p| && p[|p| - |PromptSuffix|..] == PromptSuffix
  {
    var style := TextSetting(config, "style", DefaultStyle);
    var description := TextSetting(config, "description", "");
    var emotion := TextSetting(config, "emotion", "");
    var segments := NonEmpty(PromptParts(style, description, emotion));
    PromptSegments(style, description, emotion);
    JoinFirst(segments, ", ");
    JoinLast(segments, ", ");
  }

  /** A config without a style gets the "anime" style. */
  lemma DefaultStylePrompt(config: Config)
    requires Get(config, "style").None?
    ensures var p := GeneratePrompt(config);
            |p| >= 11 && p[..11] == "anime style"
  {
    PromptFrame(config);
  }

  // ---------------------------------------------------------------------------------
  // The request payload.

  const NegativePrompt := "low quality, blurry, distorted, extra limbs"

  /** `config.get(key, default) if config else default`: an empty config counts as none. */
  function Setting(config: Option<Config>, key: string, default: Json): Json
  {
    if config.Some? && config.value != [] then Get(config.value, key).GetOr(default) else default
  }

  /** The payload of `call_sd_api`, in its key order. */
  function Payload(prompt: string, config: Option<Config>): (p: seq<(string, Json)>)
    ensures Keys(p) == ["prompt", "negative_prompt", "steps", "width", "height", "cfg_scale", "sampler_name"]
    ensures Get(p, "prompt") == Some(Str(prompt))
    ensures Get(p, "negative_prompt") == Some(Str(NegativePrompt))
  {
    var p := [
      ("prompt", Str(prompt)),
      ("negative_prompt", Str(NegativePrompt)),
      ("steps", Setting(config, "steps", Num(30.0))),
      ("width", Setting(config, "width", Num(1024.0))),
      ("height", Setting(config, "height", Num(1024.0))),
      ("cfg_scale", Setting(config, "cfg_scale", Num(7.0))),
      ("sampler_name", Setting(config, "sampler", Str("DPM++ 2M Karras")))
    ];
    assert Get(p, "negative_prompt") == Get(p[1..], "negative_prompt");
    p
  }

  /** With no config, or an empty one, every setting takes its default. */
  lemma PayloadDefaults(prompt: string, config: Option<Config>)
    requires config.None? || config.value == []
    ensures Payload(prompt, config) == [
      ("prompt", Str(prompt)),
      ("negative_prompt", Str(NegativePrompt)),
      ("steps", Num(30.0)), ("width", Num(1024.0)), ("height", Num(1024.0)),
      ("cfg_scale", Num(7.0)), ("sampler_name", Str("DPM++ 2M Karras"))]
  {
  }

  /**
   * With a non-empty config, each setting is the config's value when it has the key
   * (`sampler` for `sampler_name`) and the default otherwise, key by key.
   */
  lemma PayloadFromConfig(prompt: string, config: Config)
    requires config != []
    ensures var p := Payload(prompt, Some(config));
            && p[2].1 == (if HasKey(config, "steps") then Get(config, "steps").value else Num(30.0))
            && p[3].1 == (if HasKey(config, "width") then Get(config, "width").value else Num(1024.0))
            && p[4].1 == (if HasKey(config, "height") then Get(config, "height").value else Num(1024.0))
            && p[5].1 == (if HasKey(config, "cfg_scale") then Get(config, "cfg_scale").value else Num(7.0))
            && p[6].1 == (if HasKey(config, "sampler") then Get(config, "sampler").value else Str("DPM++ 2M Karras"))
  {
  }

  // ---------------------------------------------------------------------------------
  // The service reply.

  /** What the text-to-image service gives back: a request failure or a parsed JSON body. */
  datatype Response = RequestError | Reply(body: Json)

  /** The image saved (the first of `images`), nothing saved, or an exception that escapes. */
  datatype SdOutcome = Saved(image: Json) | NotSaved | SdCrash

  /**
   * `call_sd_api` after the request: success needs a non-empty `images` list, and only
   * its first image is written. A failed request only reports failure; `"images" in result`
   * and `result["images"]` raise on replies that are not dicts but contain "images".
   */
  function ReadReply(response: Response): (r: SdOutcome)
    ensures r.Saved? <==>
      && response.Reply? && response.body.Obj?
      && var imgs := Get(response.body.fields, "images");
      && imgs.Some? && imgs.value.Arr? && imgs.value.items != []
    ensures r.Saved? ==> r.image == Get(response.body.fields, "images").value.items[0]
    ensures response.RequestError? ==> r == NotSaved
  {
    if response.RequestError? then NotSaved
    else
      match response.body
      case Obj(fields) =>
        var imgs := Get(fields, "images");
        if imgs.None? || !Truthy(imgs.value) then NotSaved
        else if imgs.value.Arr? then Saved(imgs.value.items[0])
        else SdCrash
      case Arr(items) => if Str("images") in items then SdCrash else NotSaved
      case Str(s) => if IsSubstring("images", s) then SdCrash else NotSaved
      case _ => SdCrash
  }

  // ---------------------------------------------------------------------------------
  // `main`.

  /** The parsed command line; an empty `--config` or `--prompt` counts as not given. */
  datatype IllustrateArgs = IllustrateArgs(config: Option<string>, prompt: Option<string>, output: Path)

  const UnknownCharacter := "char_unknown"
  const ManualCharacter := "char_manual"

  /** `Path(output) / character_id / "illustration.png"`; an empty id adds no component. */
  function IllustrationPath(output: Path, characterId: string): (p: Path)
    ensures characterId != "" ==> p == output + [characterId, "illustration.png"]
    ensures Name(p) == "illustration.png"
  {
    output + (if characterId == "" then [] else [characterId]) + ["illustration.png"]
  }

  datatype IllustrateOutcome =
    | Usage
    | ConfigCrash
    | Requested(characterId: string, outputPath: Path, prompt: string,
                payload: seq<(string, Json)>, outcome: SdOutcome)

  function Given(arg: Option<string>): bool
  {
    arg.Some? && arg.value != ""
  }

  /**
   * `main`: a usage message without a config or prompt; with a config file, its
   * `character_id` (default "char_unknown") and generated prompt; otherwise the given
   * prompt under "char_manual". A config that cannot be read, is not an object, has a
   * `character_id` that is not text, or has a description the prompt join rejects raises.
   */
  function IllustrateMain(args: IllustrateArgs, configFile: FileState<Json>, response: Response): (o: IllustrateOutcome)
    ensures o == Usage <==> !Given(args.config) && !Given(args.prompt)
    ensures o == ConfigCrash <==>
              && Given(args.config)
              && (|| !configFile.Present? || !configFile.doc.Obj?
                  || (Get(configFile.doc.fields, "character_id").Some?
                      && !Get(configFile.doc.fields, "character_id").value.Str?)
                  || PromptRaises(configFile.doc.fields))
    ensures o.Requested? ==> o.outputPath == IllustrationPath(args.output, o.characterId)
    ensures o.Requested? && !Given(args.config) ==>
              o.characterId == ManualCharacter && o.prompt == args.prompt.value
              && o.payload == Payload(o.prompt, None)
    ensures o.Requested? && Given(args.config) ==>
              configFile.Present? && configFile.doc.Obj?
              && o.prompt == GeneratePrompt(configFile.doc.fields)
              && o.payload == Payload(o.prompt, Some(configFile.doc.fields))
              && o.characterId == TextSetting(configFile.doc.fields, "character_id", UnknownCharacter)
    ensures o.Requested? ==> o.outcome == ReadReply(response)
  {
    if !Given(args.config) && !Given(args.prompt) then Usage
    else if Given(args.config) then
      if !configFile.Present? || !configFile.doc.Obj? then ConfigCrash
      else
        var config := configFile.doc.fields;
        var id := Get(config, "character_id");
        if (id.Some? && !id.value.Str?) || PromptRaises(config) then ConfigCrash
        else
          var characterId := if id.Some? then id.value.s else UnknownCharacter;
          var prompt := GeneratePrompt(config);
          Requested(characterId, IllustrationPath(args.output, characterId), prompt,
                    Payload(prompt, Some(config)), ReadReply(response))
    else
      Requested(ManualCharacter, IllustrationPath(args.output, ManualCharacter), args.prompt.value,
                Payload(args.prompt.value, None), ReadReply(response))
  }
}
