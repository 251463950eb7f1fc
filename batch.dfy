/**
 * The batch driver of `batch_generate.py`: characters are processed one after another,
 * each through the illustration, part, rig and animation scripts, every stage after the
 * first gated on the previous stage's output being on disk.
 *
 * The filesystem is the set of paths that exist. A script run is abstract: `env` gives,
 * for an invocation and the paths visible when it starts, its exit status and the paths
 * it creates.
 */
module Batch {
  import opened Base
  import opened Json

  /** A character record with text values (a CSV row, or a JSON object of strings). */
  type Record = seq<(string, string)>

  /** The JSON input file: a top-level list of records, or an object whose `characters` may be absent. */
  datatype CharactersDoc = ListDoc(items: seq<Record>) | ObjectDoc(characters: Option<seq<Record>>)

  /** `load_characters_json` on a parsed document. */
  function LoadCharactersJson(doc: CharactersDoc): (r: seq<Record>)
    ensures doc.ListDoc? ==> r == doc.items
    ensures doc.ObjectDoc? && doc.characters.Some? ==> r == doc.characters.value
    ensures doc.ObjectDoc? && doc.characters.None? ==> r == []
  {
    match doc
    case ListDoc(items) => items
    case ObjectDoc(characters) => characters.GetOr([])
  }

  /** The four scripts the driver runs, with the paths it passes them. */
  datatype Invocation =
    | IllustrateInv(config: Path, output: Path)
    | SplitInv(input: Path, output: Path)
    | RigInv(input: Path, output: Path)
    | AnimateInv(input: Path, preset: string)

  /** The script file and argument list of an invocation, as `run_script` receives them. */
  function Argv(inv: Invocation): (string, seq<string>)
  {
    match inv
    case IllustrateInv(config, output) => ("gen_illustration.py", ["--config", PathText(config), "--output", PathText(output)])
    case SplitInv(input, output) => ("split_parts.py", ["--input", PathText(input), "--output", PathText(output)])
    case RigInv(input, output) => ("rig_character.py", ["--input", PathText(input), "--output", PathText(output)])
    case AnimateInv(input, preset) => ("animate_character.py", ["--input", PathText(input), "--preset", preset])
  }

  /** How a sub-process ended: an exit code, the 300-second timeout, or an exception starting it. */
  datatype ExitStatus = Exited(code: int) | TimedOut | LaunchError

  datatype ScriptRun = ScriptRun(status: ExitStatus, created: set<Path>)

  /** `run_script`'s verdict: success exactly for exit code 0; a timeout or exception is failure. */
  function RunScript(status: ExitStatus): (ok: bool)
    ensures ok <==> status == Exited(0)
  {
    match status
    case Exited(code) => code == 0
    case TimedOut => false
    case LaunchError => false
  }

  /** One script run: what it was, the paths it could see, and `run_script`'s verdict. */
  datatype CallRecord = CallRecord(inv: Invocation, visible: set<Path>, ok: bool)

  datatype StageRun = StageRun(fs: set<Path>, calls: seq<CallRecord>)

  /** `character.get("character_id", "unknown")`. */
  function CharId(rec: Record): string
  {
    Get(rec, "character_id").GetOr("unknown")
  }

  /** `output_dir / char_id`; an empty id adds no component. */
  function CharDir(output: Path, id: string): Path
  {
    output + (if id == "" then [] else [id])
  }

  /** Run one script against the current filesystem and log it. */
  function Step(inv: Invocation, env: (Invocation, set<Path>) -> ScriptRun, run: StageRun): (r: StageRun)
    ensures run.fs <= r.fs
    ensures r.calls == run.calls + [CallRecord(inv, run.fs, RunScript(env(inv, run.fs).status))]
  {
    var s := env(inv, run.fs);
    StageRun(run.fs + s.created, run.calls + [CallRecord(inv, run.fs, RunScript(s.status))])
  }

  /** The animation preset passed for a record: its `animation_preset`, else "combat". */
  function AnimationPreset(rec: Record): string
  {
    Get(rec, "animation_preset").GetOr("combat")
  }

  /**
   * `process_character`: create the character directory and write `config.json`, run
   * the illustration script (its failure only warns), then the part, rig and animation
   * scripts, each only if the previous stage's output path exists at that moment.
   */
  function Process(rec: Record, output: Path, fs: set<Path>, env: (Invocation, set<Path>) -> ScriptRun): StageRun
  {
    var dir := CharDir(output, CharId(rec));
    var config := dir + ["config.json"];
    var illustration := dir + ["illustration.png"];
    var parts := dir + ["parts"];
    var spine := dir + ["spine"];
    var r0 := StageRun(fs + {dir, config}, []);
    var r1 := Step(IllustrateInv(config, output), env, r0);
    var r2 := if illustration in r1.fs then Step(SplitInv(illustration, parts), env, r1) else r1;
    var r3 := if parts in r2.fs then Step(RigInv(parts, spine), env, r2) else r2;
    if spine in r3.fs then Step(AnimateInv(spine, AnimationPreset(rec)), env, r3) else r3
  }

  /** The object `json.dump(character)` writes to `config.json`: the record's entries as strings. */
  function ConfigFields(rec: Record): (c: seq<(string, Json)>)
    ensures |c| == |rec|
    ensures forall i :: 0 <= i < |rec| ==> c[i] == (rec[i].0, Str(rec[i].1))
  {
    seq(|rec|, i requires 0 <= i < |rec| => (rec[i].0, Str(rec[i].1)))
  }

  /** Reading a key of the written config gives the record's value for it, as a JSON string. */
  lemma {:induction false} ConfigFieldsGet(rec: Record, k: string)
    ensures Get(ConfigFields(rec), k) == if HasKey(rec, k) then Some(Str(Get(rec, k).value)) else None
  {
    if rec != [] {
      assert ConfigFields(rec)[1..] == ConfigFields(rec[1..]);
      ConfigFieldsGet(rec[1..], k);
    }
  }

  /** A call is gated correctly when each stage's input path was on disk when it started. */
  predicate Gated(c: CallRecord)
  {
    match c.inv
    case IllustrateInv(config, _) => config in c.visible
    case SplitInv(input, _) => input in c.visible
    case RigInv(input, _) => input in c.visible
    case AnimateInv(input, _) => input in c.visible
  }

  /** `process_character`, written as the sequence of steps the script takes. */
  method ProcessCharacter(rec: Record, output: Path, fs: set<Path>, env: (Invocation, set<Path>) -> ScriptRun)
    returns (ok: bool, r: StageRun)
    ensures ok
    ensures r == Process(rec, output, fs, env)
  {
    var charId := Get(rec, "character_id").GetOr("unknown");
    var charDir := CharDir(output, charId);
    var configPath := charDir + ["config.json"];
    r := StageRun(fs + {charDir, configPath}, []);
    r := Step(IllustrateInv(configPath, output), env, r);
    var illustrationPath := charDir + ["illustration.png"];
    if illustrationPath in r.fs {
      r := Step(SplitInv(illustrationPath, charDir + ["parts"]), env, r);
    }
    var partsDir := charDir + ["parts"];
    if partsDir in r.fs {
      r := Step(RigInv(partsDir, charDir + ["spine"]), env, r);
    }
    var spineDir := charDir + ["spine"];
    if spineDir in r.fs {
      var preset := Get(rec, "animation_preset").GetOr("combat");
      r := Step(AnimateInv(spineDir, preset), env, r);
    }
    ok := true;
  }

  /**
   * What one character's processing does: the directory and `config.json` exist before
   * the first script runs and stay visible to every later one; the illustration script
   * always runs first, with that config; each later stage runs only on an input that
   * exists; the part script runs exactly when the illustration exists once the
   * illustration script is done, and the animation script exactly when `spine/` exists
   * at the end; the animation preset defaults to "combat"; nothing is removed from disk.
   */
  lemma ProcessEffect(rec: Record, output: Path, fs: set<Path>, env: (Invocation, set<Path>) -> ScriptRun)
    ensures var dir := CharDir(output, CharId(rec));
            var r := Process(rec, output, fs, env);
            && fs + {dir, dir + ["config.json"]} <= r.fs
            && 1 <= |r.calls| <= 4
            && r.calls[0].inv == IllustrateInv(dir + ["config.json"], output)
            && r.calls[0].visible == fs + {dir, dir + ["config.json"]}
            && (forall c :: c in r.calls ==> Gated(c) && dir + ["config.json"] in c.visible)
            && (forall c :: c in r.calls && c.inv.AnimateInv? ==> c.inv.preset == AnimationPreset(rec))
            && (dir + ["spine"] in r.fs <==> exists i :: 0 <= i < |r.calls| && r.calls[i].inv.AnimateInv?)
            && var before := fs + {dir, dir + ["config.json"]};
            && var afterIllustration := before + env(IllustrateInv(dir + ["config.json"], output), before).created;
            && (dir + ["illustration.png"] in afterIllustration <==>
                  exists i :: 0 <= i < |r.calls| && r.calls[i].inv.SplitInv?)
  {
    var dir := CharDir(output, CharId(rec));
    var config := dir + ["config.json"];
    var illustration := dir + ["illustration.png"];
    var parts := dir + ["parts"];
    var spine := dir + ["spine"];
    var r0 := StageRun(fs + {dir, config}, []);
    var r1 := Step(IllustrateInv(config, output), env, r0);
    var r2 := if illustration in r1.fs then Step(SplitInv(illustration, parts), env, r1) else r1;
    var r3 := if parts in r2.fs then Step(RigInv(parts, spine), env, r2) else r2;
    var r := Process(rec, output, fs, env);
    assert r1.calls == [r1.calls[0]];
    if illustration in r1.fs {
      assert r.calls[1] == r2.calls[1];
      assert r.calls[1].inv.SplitInv?;
    } else {
      forall i | 0 <= i < |r.calls| ensures !r.calls[i].inv.SplitInv? {
        assert r.calls[i] in r.calls;
      }
    }
    if spine in r3.fs {
      assert r.calls[|r.calls| - 1].inv.AnimateInv?;
    } else {
      assert r == r3;
      forall i | 0 <= i < |r.calls| ensures !r.calls[i].inv.AnimateInv? {
        assert r.calls[i] in r.calls;
      }
    }
  }

  // ---------------------------------------------------------------------------------
  // The loop of `main`.

  /** `args.skip_existing and (output_dir / char_id / "spine").exists()`. */
  predicate Skips(rec: Record, output: Path, skipExisting: bool, fs: set<Path>)
  {
    skipExisting && CharDir(output, CharId(rec)) + ["spine"] in fs
  }

  /**
   * The state after the loop: the success count, the filesystem, every script run in
   * order, and for each record whether it was processed (true) or skipped (false).
   */
  datatype BatchRun = BatchRun(count: nat, fs: set<Path>, calls: seq<CallRecord>, processed: seq<bool>)

  /** One iteration of the loop of `main`: skip the record, or process it and count it. */
  function Next(prev: BatchRun, rec: Record, output: Path, skipExisting: bool,
                env: (Invocation, set<Path>) -> ScriptRun): (r: BatchRun)
    ensures r.processed == prev.processed + [!Skips(rec, output, skipExisting, prev.fs)]
    ensures r.count == prev.count + (if Skips(rec, output, skipExisting, prev.fs) then 0 else 1)
    ensures prev.calls <= r.calls
  {
    if Skips(rec, output, skipExisting, prev.fs) then
      BatchRun(prev.count, prev.fs, prev.calls, prev.processed + [false])
    else
      var p := Process(rec, output, prev.fs, env);
      BatchRun(prev.count + 1, p.fs, prev.calls + p.calls, prev.processed + [true])
  }

  /** The loop of `main` over `records`, by its last iteration. */
  function RunAll(records: seq<Record>, output: Path, skipExisting: bool, fs: set<Path>,
                  env: (Invocation, set<Path>) -> ScriptRun): BatchRun
    decreases |records|
  {
    if records == [] then BatchRun(0, fs, [], [])
    else Next(RunAll(records[..|records| - 1], output, skipExisting, fs, env), records[|records| - 1], output, skipExisting, env)
  }

  /** The loop of `main`: skip or process each record in input order, counting successes. */
  method RunBatch(records: seq<Record>, output: Path, skipExisting: bool, fs: set<Path>,
                  env: (Invocation, set<Path>) -> ScriptRun) returns (successCount: nat, fs': set<Path>)
    ensures var b := RunAll(records, output, skipExisting, fs, env);
            successCount == b.count && fs' == b.fs
  {
    successCount := 0;
    fs' := fs;
    ghost var calls: seq<CallRecord> := [];
    ghost var processed: seq<bool> := [];
    var i := 0;
    while i < |records|
      invariant 0 <= i <= |records|
      invariant BatchRun(successCount, fs', calls, processed) == RunAll(records[..i], output, skipExisting, fs, env)
    {
      assert records[..i + 1][..i] == records[..i];
      var character := records[i];
      var charId := Get(character, "character_id").GetOr("unknown");
      if skipExisting && CharDir(output, charId) + ["spine"] in fs' {
        processed := processed + [false];
      } else {
        var ok, run := ProcessCharacter(character, output, fs', env);
        if ok {
          successCount := successCount + 1;
        }
        fs' := run.fs;
        calls := calls + run.calls;
        processed := processed + [true];
      }
      i := i + 1;
    }
    assert records[..i] == records;
  }

  function CountTrue(bs: seq<bool>): nat
  {
    if bs == [] then 0 else CountTrue(bs[..|bs| - 1]) + (if bs[|bs| - 1] then 1 else 0)
  }

  /** The count is the number of records that were processed: one per record, none lost. */
  lemma {:induction false} CountIsProcessed(records: seq<Record>, output: Path, skipExisting: bool, fs: set<Path>,
                                            env: (Invocation, set<Path>) -> ScriptRun)
    ensures var b := RunAll(records, output, skipExisting, fs, env);
            |b.processed| == |records| && b.count == CountTrue(b.processed)
    decreases |records|
  {
    if records != [] {
      CountIsProcessed(records[..|records| - 1], output, skipExisting, fs, env);
    }
  }

  /** Without `--skip-existing` every record is processed and counted. */
  lemma {:induction false} NoSkipCountsAll(records: seq<Record>, output: Path, fs: set<Path>,
                                           env: (Invocation, set<Path>) -> ScriptRun)
    ensures RunAll(records, output, false, fs, env).count == |records|
    decreases |records|
  {
    if records != [] {
      NoSkipCountsAll(records[..|records| - 1], output, fs, env);
    }
  }

  /** The loop over a prefix of the records is the first part of the loop over all of them. */
  lemma {:induction false} RunAllPrefix(records: seq<Record>, output: Path, skipExisting: bool, fs: set<Path>,
                                        env: (Invocation, set<Path>) -> ScriptRun, i: nat)
    requires i <= |records|
    ensures var b, p := RunAll(records, output, skipExisting, fs, env), RunAll(records[..i], output, skipExisting, fs, env);
            && |p.processed| == i <= |b.processed|
            && b.processed[..i] == p.processed
            && p.calls <= b.calls
    decreases |records|
  {
    if i == |records| {
      assert records[..i] == records;
      CountIsProcessed(records, output, skipExisting, fs, env);
    } else {
      var init := records[..|records| - 1];
      RunAllPrefix(init, output, skipExisting, fs, env, i);
      assert init[..i] == records[..i];
      var prev := RunAll(init, output, skipExisting, fs, env);
      var b := RunAll(records, output, skipExisting, fs, env);
      assert b == Next(prev, records[|records| - 1], output, skipExisting, env);
      assert b.processed[..i] == prev.processed[..i];
    }
  }

  /**
   * The skip rule: record `i` is skipped exactly when `--skip-existing` is set and its
   * `spine` directory exists after the records before it have been handled.
   */
  lemma SkipRule(records: seq<Record>, output: Path, skipExisting: bool, fs: set<Path>,
                 env: (Invocation, set<Path>) -> ScriptRun, i: nat)
    requires i < |records|
    ensures var b := RunAll(records, output, skipExisting, fs, env);
            |b.processed| == |records| &&
            (b.processed[i] <==> !Skips(records[i], output, skipExisting, RunAll(records[..i], output, skipExisting, fs, env).fs))
  {
    RunAllPrefix(records, output, skipExisting, fs, env, i + 1);
    var upto := records[..i + 1];
    assert upto[..i] == records[..i];
    var prev := RunAll(records[..i], output, skipExisting, fs, env);
    var step := RunAll(upto, output, skipExisting, fs, env);
    assert step == Next(prev, records[i], output, skipExisting, env);
    CountIsProcessed(records[..i], output, skipExisting, fs, env);
    CountIsProcessed(records, output, skipExisting, fs, env);
    assert step.processed[i] == !Skips(records[i], output, skipExisting, prev.fs);
  }

  /**
   * Over the whole batch: every script run was gated on its input being on disk, and
   * no run is the export script.
   */
  lemma {:induction false} BatchGated(records: seq<Record>, output: Path, skipExisting: bool, fs: set<Path>,
                                      env: (Invocation, set<Path>) -> ScriptRun)
    ensures var b := RunAll(records, output, skipExisting, fs, env);
            forall c :: c in b.calls ==> Gated(c) && Argv(c.inv).0 != "export_spine.py"
    decreases |records|
  {
    if records != [] {
      var init := records[..|records| - 1];
      var rec := records[|records| - 1];
      BatchGated(init, output, skipExisting, fs, env);
      ProcessEffect(rec, output, RunAll(init, output, skipExisting, fs, env).fs, env);
    }
  }

  /** Nothing the batch does removes a path. */
  lemma {:induction false} BatchGrows(records: seq<Record>, output: Path, skipExisting: bool, fs: set<Path>,
                                      env: (Invocation, set<Path>) -> ScriptRun)
    ensures fs <= RunAll(records, output, skipExisting, fs, env).fs
    decreases |records|
  {
    if records != [] {
      var init := records[..|records| - 1];
      BatchGrows(init, output, skipExisting, fs, env);
      ProcessEffect(records[|records| - 1], output, RunAll(init, output, skipExisting, fs, env).fs, env);
    }
  }

  /**
   * Exit statuses decide nothing: two environments that create the same paths give the
   * same count, the same filesystem and the same skip decisions.
   */
  lemma {:induction false} StatusIrrelevant(records: seq<Record>, output: Path, skipExisting: bool, fs: set<Path>,
                                            env1: (Invocation, set<Path>) -> ScriptRun,
                                            env2: (Invocation, set<Path>) -> ScriptRun)
    requires forall inv, visible :: env1(inv, visible).created == env2(inv, visible).created
    ensures var b1, b2 := RunAll(records, output, skipExisting, fs, env1), RunAll(records, output, skipExisting, fs, env2);
            b1.count == b2.count && b1.fs == b2.fs && b1.processed == b2.processed
    decreases |records|
  {
    if records != [] {
      var init := records[..|records| - 1];
      StatusIrrelevant(init, output, skipExisting, fs, env1, env2);
      var rec := records[|records| - 1];
      var prevFs := RunAll(init, output, skipExisting, fs, env1).fs;
      ProcessSameFs(rec, output, prevFs, env1, env2);
    }
  }

  lemma ProcessSameFs(rec: Record, output: Path, fs: set<Path>,
                      env1: (Invocation, set<Path>) -> ScriptRun, env2: (Invocation, set<Path>) -> ScriptRun)
    requires forall inv, visible :: env1(inv, visible).created == env2(inv, visible).created
    ensures Process(rec, output, fs, env1).fs == Process(rec, output, fs, env2).fs
  {
  }

  // ---------------------------------------------------------------------------------
  // `main`.

  /** The parsed command line. `--game` is accepted and never used. */
  datatype BatchArgs = BatchArgs(input: Path, output: Path, game: Option<string>, skipExisting: bool)

  /** `input_path.suffix == ".csv"`: the last component ends in ".csv" after a non-empty stem. */
  predicate IsCsv(input: Path)
  {
    var name := Name(input);
    |name| > 4 && name[|name| - 4..] == ".csv"
  }

  datatype BatchOutcome = InputMissing | LoadCrash | Ran(total: nat, successCount: nat, fs: set<Path>)

  /**
   * `main`: nothing without the input file; a CSV file is read as rows (None when it
   * cannot be opened or decoded, which raises), anything else as JSON (a document
   * `json.load` rejects raises); then the loop.
   */
  method BatchMain(args: BatchArgs, inputExists: bool, csvRows: Option<seq<Record>>, jsonDoc: FileState<CharactersDoc>,
                   fs: set<Path>, env: (Invocation, set<Path>) -> ScriptRun) returns (o: BatchOutcome)
    ensures !inputExists <==> o == InputMissing
    ensures inputExists && IsCsv(args.input) && csvRows.None? ==> o == LoadCrash
    ensures inputExists && IsCsv(args.input) && csvRows.Some? ==>
              var b := RunAll(csvRows.value, args.output, args.skipExisting, fs, env);
              o == Ran(|csvRows.value|, b.count, b.fs)
    ensures inputExists && !IsCsv(args.input) && !jsonDoc.Present? ==> o == LoadCrash
    ensures inputExists && !IsCsv(args.input) && jsonDoc.Present? ==>
              var records := LoadCharactersJson(jsonDoc.doc);
              var b := RunAll(records, args.output, args.skipExisting, fs, env);
              o == Ran(|records|, b.count, b.fs)
  {
    if !inputExists {
      return InputMissing;
    }
    var characters: seq<Record>;
    if IsCsv(args.input) {
      if csvRows.None? {
        return LoadCrash;
      }
      characters := csvRows.value;
    } else {
      if !jsonDoc.Present? {
        return LoadCrash;
      }
      characters := LoadCharactersJson(jsonDoc.doc);
    }
    var successCount, fs' := RunBatch(characters, args.output, args.skipExisting, fs, env);
    o := Ran(|characters|, successCount, fs');
  }
}
