/**
 * The process launcher: the fixed accelerate launcher flags, the `run_cmd`
 * list that every stage grows in place, the layout of a launcher command
 * line, and the `--key [value]` flags emitted from a cleaned config.
 */
module Launcher {
  import opened Values

  /**
   * The block `accelerate_config_cmd` appends: no dynamo backend, the default
   * dynamo mode, fp16 mixed precision, one process on one machine, two CPU
   * threads per process.
   */
  const LAUNCH_FLAGS: seq<string> := [
    "--dynamo_backend", "no",
    "--dynamo_mode", "default",
    "--mixed_precision", "fp16",
    "--num_processes", "1",
    "--num_machines", "1",
    "--num_cpu_threads_per_process", "2"
  ]

  /**
   * `get_executable_path(name)`: the path `shutil.which` finds, or "" when it
   * finds nothing. The search path is the table `which`.
   */
  function GetExecutablePath(which: map<string, string>, name: string): (r: string)
    ensures name !in which ==> r == ""
    ensures name in which ==> r == which[name]
  {
    if name in which then which[name] else ""
  }

  /** The Python list `run_cmd`, which the stage functions grow in place. */
  class RunCommand {
    var tokens: seq<string>

    constructor (init: seq<string>)
      ensures tokens == init
    {
      tokens := init;
    }

    /** `run_cmd.append(t)`. */
    method Append(t: string)
      modifies this
      ensures tokens == old(tokens) + [t]
    {
      tokens := tokens + [t];
    }
  }

  /** `accelerate_config_cmd(run_cmd)`: appends the twelve launcher tokens to the same list. */
  method AccelerateConfigCmd(run: RunCommand)
    modifies run
    ensures run.tokens == old(run.tokens) + LAUNCH_FLAGS
  {
    ghost var start := run.tokens;
    run.Append("--dynamo_backend");
    run.Append("no");
    run.Append("--dynamo_mode");
    run.Append("default");
    assert run.tokens == start + LAUNCH_FLAGS[..4];
    run.Append("--mixed_precision");
    run.Append("fp16");
    run.Append("--num_processes");
    run.Append("1");
    assert run.tokens == start + LAUNCH_FLAGS[..8];
    run.Append("--num_machines");
    run.Append("1");
    run.Append("--num_cpu_threads_per_process");
    run.Append("2");
    assert run.tokens == start + LAUNCH_FLAGS[..12];
  }

  /** The variant whose appends are all commented out: the list comes back as it went in. */
  method AccelerateConfigCmdDisabled(run: RunCommand)
    modifies run
    ensures run.tokens == old(run.tokens)
  {
  }

  // ---------------------------------------------------------------------
  // The launcher command line

  /** The parts a launcher command line is made of. */
  datatype LaunchParts = LaunchParts(
    launcher: string,
    launcherConfig: Option<string>,
    script: string,
    configFile: string,
    overrides: seq<string>)

  /**
   * `<launcher> launch [--config_file <launcher config>] <launcher flags>
   * <script> --config_file <translated config> <overrides>`: the overrides come
   * last, after the translated config file, so that they take precedence.
   */
  function LaunchArgv(p: LaunchParts): (r: seq<string>)
    ensures |r| == 17 + (if p.launcherConfig.Some? then 2 else 0) + |p.overrides|
  {
    [p.launcher, "launch"]
    + (if p.launcherConfig.Some? then ["--config_file", p.launcherConfig.value] else [])
    + LAUNCH_FLAGS
    + [p.script, "--config_file", p.configFile]
    + p.overrides
  }

  /** Reads a launcher command line back into its parts; `None` when it has another shape. */
  function SplitLaunchArgv(argv: seq<string>): Option<LaunchParts> {
    var o := if |argv| >= 4 && argv[2] == "--config_file" then 4 else 2;
    if |argv| >= o + 15 && argv[1] == "launch" && argv[o..o + 12] == LAUNCH_FLAGS
       && argv[o + 13] == "--config_file"
    then
      Some(LaunchParts(argv[0], if o == 4 then Some(argv[3]) else None,
                       argv[o + 12], argv[o + 14], argv[o + 15..]))
    else None
  }

  /** Every part of a launcher command line can be read back from it. */
  lemma LaunchArgvRoundTrip(p: LaunchParts)
    ensures SplitLaunchArgv(LaunchArgv(p)) == Some(p)
  {
    var argv := LaunchArgv(p);
    var head := [p.launcher, "launch"] + (if p.launcherConfig.Some? then ["--config_file", p.launcherConfig.value] else []);
    var o := |head|;
    assert argv == head + LAUNCH_FLAGS + [p.script, "--config_file", p.configFile] + p.overrides;
    assert o == 4 <==> p.launcherConfig.Some?;
    assert argv[2] == if o == 4 then "--config_file" else "--dynamo_backend";
    assert argv[o..o + 12] == LAUNCH_FLAGS;
    assert argv[o + 12] == p.script && argv[o + 13] == "--config_file" && argv[o + 14] == p.configFile;
    assert argv[o + 15..] == p.overrides;
  }

  /** A command line that reads as parts is the command line of those parts. */
  lemma SplitLaunchArgvSound(argv: seq<string>)
    requires SplitLaunchArgv(argv).Some?
    ensures LaunchArgv(SplitLaunchArgv(argv).value) == argv
  {
    var o := if |argv| >= 4 && argv[2] == "--config_file" then 4 else 2;
    assert argv == argv[..o] + argv[o..o + 12] + argv[o + 12..o + 15] + argv[o + 15..];
  }

  /**
   * How every `train_*` stage grows its `run_cmd`: the launcher and "launch",
   * the optional launcher config, `accelerate_config_cmd`, the script, the
   * translated config file, then one append per override token.
   */
  method LaunchCommand(p: LaunchParts) returns (argv: seq<string>)
    ensures argv == LaunchArgv(p)
  {
    var run := new RunCommand(
      [p.launcher, "launch"] + (if p.launcherConfig.Some? then ["--config_file", p.launcherConfig.value] else []));
    AccelerateConfigCmd(run);
    run.Append(p.script);
    run.Append("--config_file");
    run.Append(p.configFile);
    ghost var head := run.tokens;
    for i := 0 to |p.overrides|
      invariant run.tokens == head + p.overrides[..i]
    {
      assert p.overrides[..i + 1] == p.overrides[..i] + [p.overrides[i]];
      run.Append(p.overrides[i]);
    }
    assert p.overrides[..|p.overrides|] == p.overrides;
    argv := run.tokens;
  }

  // ---------------------------------------------------------------------
  // Flags emitted from a cleaned config

  /** The tokens one entry contributes: `--key`, then `str(value)` unless the value is True. */
  function EntryFlags(e: Entry): (r: seq<string>)
    ensures |r| == if IsTrue(e.1) then 1 else 2
    ensures r[0] == "--" + e.0
    ensures !IsTrue(e.1) ==> r[1] == PyStr(e.1)
  {
    ["--" + e.0] + (if IsTrue(e.1) then [] else [PyStr(e.1)])
  }

  /** The loop `for key in cleaned: if key not in reserved: ...` of the extract and merge stages, as a value. */
  function ConfigFlags(c: Config, reserved: set<string>): (r: seq<string>)
    ensures |r| <= 2 * |c|
  {
    if c == [] then []
    else (if c[0].0 in reserved then [] else EntryFlags(c[0])) + ConfigFlags(c[1..], reserved)
  }

  /** Every key the loop does not skip is emitted as its flag, and nothing is emitted for a reserved key alone. */
  lemma {:induction false} ConfigFlagsEmitsEveryKey(c: Config, reserved: set<string>)
    ensures forall i :: 0 <= i < |c| && c[i].0 !in reserved ==> "--" + c[i].0 in ConfigFlags(c, reserved)
    ensures (forall i :: 0 <= i < |c| ==> c[i].0 in reserved) ==> ConfigFlags(c, reserved) == []
  {
    if c != [] {
      ConfigFlagsEmitsEveryKey(c[1..], reserved);
      forall i | 0 <= i < |c| && c[i].0 !in reserved
        ensures "--" + c[i].0 in ConfigFlags(c, reserved)
      {
        if i > 0 {
          assert c[i] == c[1..][i - 1];
        }
      }
    }
  }

  /** One entry in front of a config contributes its own flags, unless its key is reserved, ahead of the rest. */
  lemma ConfigFlagsCons(e: Entry, rest: Config, reserved: set<string>)
    ensures ConfigFlags([e] + rest, reserved)
         == (if e.0 in reserved then [] else EntryFlags(e)) + ConfigFlags(rest, reserved)
  {
    assert ([e] + rest)[1..] == rest;
  }

  /** The flags of a concatenation are the flags of its parts, in order. */
  lemma {:induction false} ConfigFlagsAppend(a: Config, b: Config, reserved: set<string>)
    ensures ConfigFlags(a + b, reserved) == ConfigFlags(a, reserved) + ConfigFlags(b, reserved)
  {
    if a == [] {
      assert a + b == b;
    } else {
      assert (a + b)[1..] == a[1..] + b;
      ConfigFlagsAppend(a[1..], b, reserved);
    }
  }

  /** The flags of one more entry of a config follow the flags of the entries before it. */
  lemma ConfigFlagsSnoc(c: Config, i: nat, reserved: set<string>)
    requires i < |c|
    ensures ConfigFlags(c[..i + 1], reserved)
         == ConfigFlags(c[..i], reserved) + (if c[i].0 in reserved then [] else EntryFlags(c[i]))
  {
    assert c[..i + 1] == c[..i] + [c[i]];
    ConfigFlagsAppend(c[..i], [c[i]], reserved);
    ConfigFlagsCons(c[i], [], reserved);
    assert [c[i]] + [] == [c[i]];
  }

  /** `run_cmd.append` for every token the config contributes. */
  method AppendConfigFlags(run: RunCommand, c: Config, reserved: set<string>)
    modifies run
    ensures run.tokens == old(run.tokens) + ConfigFlags(c, reserved)
  {
    for i := 0 to |c|
      invariant run.tokens == old(run.tokens) + ConfigFlags(c[..i], reserved)
    {
      ConfigFlagsSnoc(c, i, reserved);
      var (key, value) := c[i];
      if key !in reserved {
        run.Append("--" + key);
        if !IsTrue(value) {
          run.Append(PyStr(value));
        }
      }
    }
    assert c[..|c|] == c;
  }

  /** The entries whose keys are not reserved. */
  function Eligible(c: Config, reserved: set<string>): (r: Config)
    ensures forall e :: e in r <==> e in c && e.0 !in reserved
  {
    if c == [] then []
    else (if c[0].0 in reserved then [] else [c[0]]) + Eligible(c[1..], reserved)
  }

  /** How many entries carry a value other than True. */
  function ValuedCount(c: Config): nat {
    if c == [] then 0 else (if IsTrue(c[0].1) then 0 else 1) + ValuedCount(c[1..])
  }

  /** One flag per eligible key, plus one value token per eligible key whose value is not True. */
  lemma {:induction false} ConfigFlagsLength(c: Config, reserved: set<string>)
    ensures |ConfigFlags(c, reserved)| == |Eligible(c, reserved)| + ValuedCount(Eligible(c, reserved))
  {
    if c != [] {
      ConfigFlagsLength(c[1..], reserved);
      if c[0].0 !in reserved {
        assert ([c[0]] + Eligible(c[1..], reserved))[1..] == Eligible(c[1..], reserved);
      } else {
        assert ConfigFlags(c, reserved) == ConfigFlags(c[1..], reserved);
        assert Eligible(c, reserved) == Eligible(c[1..], reserved);
      }
    }
  }

  /** An option as a script reads it: a name, and a value unless it is a bare switch. */
  type Opt = (string, Option<string>)

  /**
   * How a script that knows which of its options are bare switches reads
   * `--key [value]` tokens: a switch stands alone, any other option takes the
   * next token as its value.
   */
  function ReadOptions(tokens: seq<string>, switches: set<string>): Option<seq<Opt>>
    decreases |tokens|
  {
    if tokens == [] then Some([])
    else if |tokens[0]| < 2 || tokens[0][..2] != "--" then None
    else
      var key := tokens[0][2..];
      if key in switches then
        match ReadOptions(tokens[1..], switches)
        case None => None
        case Some(rest) => Some([(key, None)] + rest)
      else if |tokens| < 2 then None
      else
        match ReadOptions(tokens[2..], switches)
        case None => None
        case Some(rest) => Some([(key, Some(tokens[1]))] + rest)
  }

  /** The options the eligible entries stand for: True as a switch, anything else by its `str()`. */
  function Options(c: Config, reserved: set<string>): (r: seq<Opt>)
    ensures |r| == |Eligible(c, reserved)|
    ensures forall i :: 0 <= i < |r| ==> r[i].0 == Eligible(c, reserved)[i].0
  {
    if c == [] then []
    else if c[0].0 in reserved then Options(c[1..], reserved)
    else
      [(c[0].0, if IsTrue(c[0].1) then None else Some(PyStr(c[0].1)))] + Options(c[1..], reserved)
  }

  /** Reading `--key value` (or a bare `--key` switch) in front of more tokens. */
  lemma ReadOptionsCons(key: string, value: Option<string>, rest: seq<string>, switches: set<string>)
    requires value.None? <==> key in switches
    ensures ReadOptions(["--" + key] + (if value.Some? then [value.value] else []) + rest, switches)
         == match ReadOptions(rest, switches)
            case None => None
            case Some(opts) => Some([(key, value)] + opts)
  {
    var tokens := ["--" + key] + (if value.Some? then [value.value] else []) + rest;
    assert tokens[0][..2] == "--" && tokens[0][2..] == key;
    if value.Some? {
      assert tokens[2..] == rest;
    } else {
      assert tokens[1..] == rest;
    }
  }

  /** The target script's bare switches are exactly the eligible keys the config sets to True. */
  predicate SwitchesMatch(c: Config, reserved: set<string>, switches: set<string>) {
    forall i :: 0 <= i < |c| && c[i].0 !in reserved ==> (c[i].0 in switches <==> IsTrue(c[i].1))
  }

  /**
   * A False value for a key the target script takes as a bare switch is
   * emitted as `--key False`, which that script cannot read: the switch takes
   * no value, and "False" is not an option.
   */
  lemma FalseSwitchUnreadable(key: string, rest: Config, reserved: set<string>, switches: set<string>)
    requires key !in reserved && key in switches
    ensures ReadOptions(ConfigFlags([(key, Bool(false))] + rest, reserved), switches).None?
  {
    var tokens := ["--" + key, "False"] + ConfigFlags(rest, reserved);
    ConfigFlagsCons((key, Bool(false)), rest, reserved);
    assert ConfigFlags([(key, Bool(false))] + rest, reserved) == tokens;
    assert tokens[0][..2] == "--" && tokens[0][2..] == key;
    var tail := tokens[1..];
    assert tail[0] == "False";
    assert tail[0][..2][0] == 'F';
    assert ReadOptions(tail, switches) == None;
  }

  /**
   * When the target script's bare switches are exactly the keys the config
   * sets to True, it reads the emitted flags back as one option per eligible
   * key, in config order, each with the value the config gave it.
   */
  lemma {:induction false} ReadConfigFlags(c: Config, reserved: set<string>, switches: set<string>)
    requires SwitchesMatch(c, reserved, switches)
    ensures ReadOptions(ConfigFlags(c, reserved), switches) == Some(Options(c, reserved))
  {
    if c != [] {
      ReadConfigFlags(c[1..], reserved, switches);
      var rest := ConfigFlags(c[1..], reserved);
      if c[0].0 !in reserved {
        var value := if IsTrue(c[0].1) then None else Some(PyStr(c[0].1));
        assert ConfigFlags(c, reserved) == ["--" + c[0].0] + (if value.Some? then [value.value] else []) + rest;
        ReadOptionsCons(c[0].0, value, rest, switches);
      } else {
        assert ConfigFlags(c, reserved) == rest;
      }
    }
  }

  /**
   * The value a script ends up with for option `key`: a later occurrence
   * overrides an earlier one, as argparse's store action does. `None` when the
   * option is absent or the last occurrence is a bare switch.
   */
  function ArgValue(opts: seq<Opt>, key: string): Option<string>
    decreases |opts|
  {
    if opts == [] then None
    else if opts[|opts| - 1].0 == key then opts[|opts| - 1].1
    else ArgValue(opts[..|opts| - 1], key)
  }

  /** Options that never name `key` cannot change the value it ends up with. */
  lemma {:induction false} ArgValueAppendAbsent(a: seq<Opt>, b: seq<Opt>, key: string)
    requires forall i :: 0 <= i < |b| ==> b[i].0 != key
    ensures ArgValue(a + b, key) == ArgValue(a, key)
    decreases |b|
  {
    if b == [] {
      assert a + b == a;
    } else {
      var ab := a + b;
      assert ab[|ab| - 1] == b[|b| - 1];
      assert ab[..|ab| - 1] == a + b[..|b| - 1];
      ArgValueAppendAbsent(a, b[..|b| - 1], key);
    }
  }

  /** The config never names a reserved key, so it cannot override one. */
  lemma OptionsAvoidReserved(c: Config, reserved: set<string>, key: string)
    requires key in reserved
    ensures forall i :: 0 <= i < |Options(c, reserved)| ==> Options(c, reserved)[i].0 != key
  {
    var opts := Options(c, reserved);
    var e := Eligible(c, reserved);
    forall i | 0 <= i < |opts| ensures opts[i].0 != key {
      assert e[i] in e;
    }
  }

  /**
   * The value a script started as `[program, script] + tokens` ends up with
   * for `key`, given its bare switches; `None` when it cannot read the tokens.
   */
  function ScriptSetting(argv: seq<string>, switches: set<string>, key: string): Option<string> {
    if |argv| < 2 then None
    else match ReadOptions(argv[2..], switches)
      case None => None
      case Some(opts) => ArgValue(opts, key)
  }

  /**
   * The value the script of a launcher command line ends up with for a `key`
   * among its overrides (they are read after its config file, so they win).
   * It is `None` for a key the overrides do not set: that value comes from
   * the config file, which is not read here.
   */
  function LaunchedSetting(argv: seq<string>, switches: set<string>, key: string): Option<string> {
    match SplitLaunchArgv(argv)
    case None => None
    case Some(p) =>
      match ReadOptions(p.overrides, switches)
      case None => None
      case Some(opts) => ArgValue(opts, key)
  }

  // ---------------------------------------------------------------------
  // Fixed `--key value` pairs written out in the stages

  /** `--key value` for each pair, in order. */
  function ValuedFlags(ps: seq<(string, string)>): (r: seq<string>)
    ensures |r| == 2 * |ps|
  {
    if ps == [] then [] else ["--" + ps[0].0, ps[0].1] + ValuedFlags(ps[1..])
  }

  /** The options the pairs stand for. */
  function ValuedOptions(ps: seq<(string, string)>): (r: seq<Opt>)
    ensures |r| == |ps|
    ensures forall i :: 0 <= i < |ps| ==> r[i] == (ps[i].0, Some(ps[i].1))
  {
    if ps == [] then [] else [(ps[0].0, Some(ps[0].1))] + ValuedOptions(ps[1..])
  }

  predicate KeysNotSwitches(ps: seq<(string, string)>, switches: set<string>) {
    forall i :: 0 <= i < |ps| ==> ps[i].0 !in switches
  }

  predicate PairKeysDistinct(ps: seq<(string, string)>) {
    forall i, j :: 0 <= i < j < |ps| ==> ps[i].0 != ps[j].0
  }

  /** The first pair's flags come first, ahead of the rest's and whatever follows. */
  lemma ValuedFlagsCons(ps: seq<(string, string)>, rest: seq<string>)
    requires ps != []
    ensures ValuedFlags(ps) + rest == ["--" + ps[0].0, ps[0].1] + (ValuedFlags(ps[1..]) + rest)
  {
  }

  /** The first pair's option comes first, ahead of the rest's and whatever follows. */
  lemma ValuedOptionsCons(ps: seq<(string, string)>, opts: seq<Opt>)
    requires ps != []
    ensures ValuedOptions(ps) + opts == [(ps[0].0, Some(ps[0].1))] + (ValuedOptions(ps[1..]) + opts)
  {
  }

  /** Dropping the first pair keeps the keys clear of the switches. */
  lemma KeysNotSwitchesTail(ps: seq<(string, string)>, switches: set<string>)
    requires ps != [] && KeysNotSwitches(ps, switches)
    ensures KeysNotSwitches(ps[1..], switches) && ps[0].0 !in switches
  {
    forall i | 0 <= i < |ps[1..]| ensures ps[1..][i].0 !in switches {
      assert ps[1..][i] == ps[i + 1];
    }
  }

  /** A `--key value` pair whose key is not a switch reads as that option, ahead of what follows. */
  lemma ReadValuedOption(key: string, value: string, rest: seq<string>, switches: set<string>)
    requires key !in switches
    ensures ReadOptions(["--" + key, value] + rest, switches)
         == match ReadOptions(rest, switches)
            case None => None
            case Some(opts) => Some([(key, Some(value))] + opts)
  {
    ReadOptionsCons(key, Some(value), rest, switches);
    assert ["--" + key] + [value] + rest == ["--" + key, value] + rest;
  }

  /** A script reads fixed valued pairs back as those options, whatever follows them. */
  lemma {:induction false} ReadValuedFlags(ps: seq<(string, string)>, rest: seq<string>, switches: set<string>)
    requires KeysNotSwitches(ps, switches)
    ensures ReadOptions(ValuedFlags(ps) + rest, switches)
         == match ReadOptions(rest, switches)
            case None => None
            case Some(opts) => Some(ValuedOptions(ps) + opts)
  {
    if ps == [] {
      assert ValuedFlags(ps) + rest == rest;
      match ReadOptions(rest, switches)
      case None =>
      case Some(opts) =>
        assert ValuedOptions(ps) + opts == opts;
    } else {
      var tail := ValuedFlags(ps[1..]) + rest;
      ValuedFlagsCons(ps, rest);
      KeysNotSwitchesTail(ps, switches);
      ReadValuedOption(ps[0].0, ps[0].1, tail, switches);
      ReadValuedFlags(ps[1..], rest, switches);
      match ReadOptions(rest, switches)
      case None =>
      case Some(opts) =>
        ValuedOptionsCons(ps, opts);
    }
  }

  /** Fixed valued pairs on their own read back as their options. */
  lemma ReadValuedFlagsAlone(ps: seq<(string, string)>, switches: set<string>)
    requires KeysNotSwitches(ps, switches)
    ensures ReadOptions(ValuedFlags(ps), switches) == Some(ValuedOptions(ps))
  {
    ReadValuedFlags(ps, [], switches);
    assert ValuedFlags(ps) + [] == ValuedFlags(ps);
    assert ValuedOptions(ps) + [] == ValuedOptions(ps);
  }

  /** With distinct keys, each pair's key ends up with that pair's value. */
  lemma {:induction false} ArgValueOfValued(ps: seq<(string, string)>, k: nat)
    requires PairKeysDistinct(ps) && k < |ps|
    ensures ArgValue(ValuedOptions(ps), ps[k].0) == Some(ps[k].1)
    decreases |ps|
  {
    var opts := ValuedOptions(ps);
    if k < |ps| - 1 {
      var init := ps[..|ps| - 1];
      assert opts[..|opts| - 1] == ValuedOptions(init);
      ArgValueOfValued(init, k);
    }
  }

  /**
   * A script started as `[program, script] + ValuedFlags(ps) + ConfigFlags(c)`
   * with every fixed key reserved ends up with the fixed values: the config
   * cannot override them.
   */
  lemma ScriptReadsFixed(program: string, script: string, ps: seq<(string, string)>,
                         c: Config, reserved: set<string>, switches: set<string>, k: nat)
    requires PairKeysDistinct(ps) && KeysNotSwitches(ps, switches) && k < |ps|
    requires forall i :: 0 <= i < |ps| ==> ps[i].0 in reserved
    requires SwitchesMatch(c, reserved, switches)
    ensures ScriptSetting([program, script] + ValuedFlags(ps) + ConfigFlags(c, reserved), switches, ps[k].0)
         == Some(ps[k].1)
  {
    var tokens := ValuedFlags(ps) + ConfigFlags(c, reserved);
    var argv := [program, script] + tokens;
    var a, b := ValuedOptions(ps), Options(c, reserved);
    assert argv[2..] == tokens;
    assert ReadOptions(tokens, switches) == Some(a + b) by {
      ReadConfigFlags(c, reserved, switches);
      ReadValuedFlags(ps, ConfigFlags(c, reserved), switches);
    }
    assert ArgValue(a + b, ps[k].0) == Some(ps[k].1) by {
      assert ps[k].0 in reserved;
      OptionsAvoidReserved(c, reserved, ps[k].0);
      ArgValueAppendAbsent(a, b, ps[k].0);
      ArgValueOfValued(ps, k);
    }
    assert [program, script] + ValuedFlags(ps) + ConfigFlags(c, reserved) == argv;
    assert ScriptSetting(argv, switches, ps[k].0) == ArgValue(a + b, ps[k].0);
  }

  /** The script of a launcher command line reads its overrides. */
  lemma LaunchedSettingOfParts(p: LaunchParts, switches: set<string>, key: string)
    ensures LaunchedSetting(LaunchArgv(p), switches, key)
         == match ReadOptions(p.overrides, switches)
            case None => None
            case Some(opts) => ArgValue(opts, key)
  {
    LaunchArgvRoundTrip(p);
  }

  /**
   * The script of a launcher command line whose overrides are fixed valued
   * pairs ends up with each pair's value.
   */
  lemma LaunchedReadsOverrides(p: LaunchParts, ps: seq<(string, string)>, switches: set<string>, k: nat)
    requires p.overrides == ValuedFlags(ps)
    requires PairKeysDistinct(ps) && KeysNotSwitches(ps, switches) && k < |ps|
    ensures LaunchedSetting(LaunchArgv(p), switches, ps[k].0) == Some(ps[k].1)
  {
    ReadValuedFlagsAlone(ps, switches);
    ArgValueOfValued(ps, k);
    LaunchedSettingOfParts(p, switches, ps[k].0);
  }

  /**
   * `extract_lora` and `merge_lora`: the command `[program, script]` and the
   * fixed `--key value` pairs, then `run_cmd.append` for every token the
   * cleaned config contributes.
   */
  method ScriptCommand(program: string, script: string, fixed: seq<(string, string)>,
                       cleaned: Config, reserved: set<string>) returns (argv: seq<string>)
    ensures argv == [program, script] + ValuedFlags(fixed) + ConfigFlags(cleaned, reserved)
  {
    var run := new RunCommand([program, script] + ValuedFlags(fixed));
    AppendConfigFlags(run, cleaned, reserved);
    argv := run.tokens;
  }
}
