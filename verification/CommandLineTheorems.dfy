/** The printed command line means what it was printed for, in both runtimes. */
module CommandLineTheorems {
  import opened Prelude
  import opened CommandLine
  import opened CommandLineParse

  predicate PlainKeys(disabled: seq<string>) { forall key :: key in disabled ==> Plain(key) }

  /** A rooted path starts with a separator or a drive, never with a dash. */
  predicate PathsOk(h: Host, job: string) { h.rooted(job) && Plain(h.full(job)) }

  lemma ProcessArguments(h: Host, o: Options, job: string, disabled: seq<string>, claim: Option<string>)
    requires o.runtime.Process? && h.rooted(job) && (claim.Some? ==> h.rooted(claim.value))
    ensures Validate(h, o, job, disabled, claim).Ok?
    ensures Validate(h, o, job, disabled, claim).value.arguments
         == ["-m", "cad_worker"] + JobTokens("validate", h.full(job), disabled,
                                             if claim.Some? then Some(h.full(claim.value)) else None)
  {
  }

  /** A local interpreter understands the command it was given: the same job, the same claim, and
      exactly the keys that were disabled. */
  lemma ProcessValidateUnderstood(h: Host, o: Options, job: string, disabled: seq<string>, claim: Option<string>)
    requires o.runtime.Process? && PlainKeys(disabled) && PathsOk(h, job) && (claim.Some? ==> PathsOk(h, claim.value))
    ensures Validate(h, o, job, disabled, claim).Ok?
    ensures ParseEngine(Validate(h, o, job, disabled, claim).value.arguments[2..])
         == Some(Command("validate", Some(h.full(job)), if claim.Some? then Some(h.full(claim.value)) else None,
                         Ordered(disabled)))
  {
    var full := if claim.Some? then Some(h.full(claim.value)) else None;
    ProcessArguments(h, o, job, disabled, claim);
    JobTokensParse("validate", h.full(job), disabled, full);
    var arguments := Validate(h, o, job, disabled, claim).value.arguments;
    assert arguments[2..] == JobTokens("validate", h.full(job), disabled, full);
  }

  lemma ProcessBuildUnderstood(h: Host, o: Options, job: string, disabled: seq<string>)
    requires o.runtime.Process? && PlainKeys(disabled) && PathsOk(h, job)
    ensures Build(h, o, job, disabled).Ok?
    ensures ParseEngine(Build(h, o, job, disabled).value.arguments[2..])
         == Some(Command("build", Some(h.full(job)), None, Ordered(disabled)))
  {
    JobTokensParse("build", h.full(job), disabled, None);
    assert Build(h, o, job, disabled).value.arguments[2..] == JobTokens("build", h.full(job), disabled, None);
  }

  lemma ProcessDescribeUnderstood(o: Options, disabled: seq<string>)
    requires o.runtime.Process? && PlainKeys(disabled)
    ensures ParseEngine(Describe(o, disabled).arguments[2..])
         == Some(Command("describe", None, None, Ordered(disabled)))
  {
    DescribeTokensParse(disabled);
    assert Describe(o, disabled).arguments[2..] == ["describe"] + Flags(disabled);
  }

  /** An engine that disables what it understood is believed; one that drops or adds a key is not. */
  lemma SameKeys(disabled: seq<string>, applied: seq<string>)
    ensures FlagsApplied(disabled, applied) <==> FlagsApplied(Ordered(disabled), applied)
  {
    forall key ensures key in Ordered(disabled) <==> key in disabled { OrderedMembers(disabled, key); }
  }

  // ----- containers ----------------------------------------------------------------------

  /** How the engine is shut in: thrown away afterwards, nothing writable but a scratch directory, no
      network, not root when a user is named, and of the host nothing but the job. */
  function ShutIn(o: Options, job: Option<string>): seq<(string, string)> {
    [("--rm", ""), ("--read-only", ""), ("--network", "none"), ("--tmpfs", "/tmp")]
    + (match o.containerUser case Some(user) => if user == "" then [] else [("--user", user)] case None => [])
    + (match job case Some(path) => [("--mount", "type=bind,src=" + path + ",dst=/work")] case None => [])
  }

  lemma OptionsKnown(o: Options, job: Option<string>)
    ensures forall option :: option in RunOptions(o, job) ==> Known(option)
    ensures SettingsOf(RunOptions(o, job)) == ShutIn(o, job)
  {
    var sealing := [Switch("--rm"), Switch("--read-only"), Setting("--network", "none"), Setting("--tmpfs", "/tmp")];
    var user := if o.containerUser.Some? && o.containerUser.value != [] then [Setting("--user", o.containerUser.value)]
                else [];
    var mount := if job.Some? then [Setting("--mount", MountSpec(job.value, JOB_PATH, false))] else [];
    SealingSettings();
    assert SettingsOf([]) == [];
    if user != [] { OneSetting(user[0]); }
    if mount != [] {
      OneSetting(mount[0]);
      assert MountSpec(job.value, JOB_PATH, false) == "type=bind,src=" + job.value + ",dst=/work";
    }
    SettingsAppend(sealing, user);
    SettingsAppend(sealing + user, mount);
  }

  lemma OneSetting(option: RunOption)
    ensures SettingsOf([option]) == [if option.Switch? then (option.name, "") else (option.name, option.value)]
  {
    assert [option][1..] == [];
  }

  lemma SealingSettings()
    ensures SettingsOf([Switch("--rm"), Switch("--read-only"),
                        Setting("--network", "none"), Setting("--tmpfs", "/tmp")])
         == [("--rm", ""), ("--read-only", ""), ("--network", "none"), ("--tmpfs", "/tmp")]
  {
    var switches, settings := [Switch("--rm"), Switch("--read-only")],
                              [Setting("--network", "none"), Setting("--tmpfs", "/tmp")];
    OneSetting(switches[0]);
    OneSetting(switches[1]);
    OneSetting(settings[0]);
    OneSetting(settings[1]);
    SettingsAppend([switches[0]], [switches[1]]);
    SettingsAppend([settings[0]], [settings[1]]);
    SettingsAppend(switches, settings);
  }

  lemma {:induction false} TokensAppend(a: seq<RunOption>, b: seq<RunOption>)
    ensures Tokens(a + b) == Tokens(a) + Tokens(b)
    decreases |a|
  {
    if a == [] {
      assert a + b == b;
    } else {
      assert (a + b)[1..] == a[1..] + b;
      TokensAppend(a[1..], b);
    }
  }

  lemma {:induction false} SettingsAppend(a: seq<RunOption>, b: seq<RunOption>)
    ensures SettingsOf(a + b) == SettingsOf(a) + SettingsOf(b)
    decreases |a|
  {
    if a == [] {
      assert a + b == b;
    } else {
      assert (a + b)[1..] == a[1..] + b;
      SettingsAppend(a[1..], b);
    }
  }

  /** A container is told to build or check the mounted job with exactly the keys that were
      disabled. */
  lemma ContainerJobUnderstood(h: Host, o: Options, command: string, job: string, disabled: seq<string>)
    requires command == "build" || command == "validate"
    requires o.runtime.Container? && PlainKeys(disabled) && h.rooted(job) && ImageName(o.image)
    ensures ForJob(h, o, command, job, disabled).Ok?
    ensures var launch := ParseDocker(ForJob(h, o, command, job, disabled).value.arguments);
            && launch.Some? && launch.value.image == o.image
            && launch.value.settings == ShutIn(o, Some(h.full(job)))
            && ParseEngine(launch.value.arguments) == Some(Command(command, Some(JOB_PATH), None, Ordered(disabled)))
  {
    var options := RunOptions(o, Some(h.full(job)));
    OptionsKnown(o, Some(h.full(job)));
    RunParses(options, o.image, JobTokens(command, JOB_PATH, disabled, None));
    JobTokensParse(command, JOB_PATH, disabled, None);
    assert ForJob(h, o, command, job, disabled).value.arguments
        == ["run"] + Tokens(options) + [o.image] + JobTokens(command, JOB_PATH, disabled, None);
  }

  /** Describing mounts nothing and names no job. */
  lemma ContainerDescribeUnderstood(o: Options, disabled: seq<string>)
    requires o.runtime.Container? && PlainKeys(disabled) && ImageName(o.image)
    ensures var launch := ParseDocker(Describe(o, disabled).arguments);
            && launch.Some? && launch.value.image == o.image && launch.value.settings == ShutIn(o, None)
            && ParseEngine(launch.value.arguments) == Some(Command("describe", None, None, Ordered(disabled)))
  {
    OptionsKnown(o, None);
    RunParses(RunOptions(o, None), o.image, ["describe"] + Flags(disabled));
    DescribeTokensParse(disabled);
    assert Describe(o, disabled).arguments
        == ["run"] + Tokens(RunOptions(o, None)) + [o.image] + (["describe"] + Flags(disabled));
  }

  // ----- where the claim's mount goes ----------------------------------------------------

  lemma FirstIndex(front: seq<string>, image: string, rest: seq<string>)
    requires image !in front
    ensures IndexOf(front + [image] + rest, image) == |front|
  {
    var s := front + [image] + rest;
    assert s[|front|] == image;
    assert forall j :: 0 <= j < |front| ==> s[j] == front[j] && s[j] != image;
    assert |front| < |s|;
  }

  /** The arguments as they stand once the claim's mount is in its place. */
  function Expected(o: Options, job: string, disabled: seq<string>, claim: string): Launch {
    Launch(ShutIn(o, Some(job)) + [("--mount", "type=bind,src=" + claim + ",dst=/claim.json,readonly")], o.image,
           JobTokens("validate", JOB_PATH, disabled, Some(CLAIM_PATH)))
  }

  function Before(o: Options, job: string): seq<string> { ["run"] + Tokens(RunOptions(o, Some(job))) }

  function Rest(disabled: seq<string>): seq<string> { JobTokens("validate", JOB_PATH, disabled, None) }

  function Arguments(o: Options, job: string, disabled: seq<string>, claim: string): seq<string> {
    var all := Before(o, job) + [o.image] + Rest(disabled);
    InsertAt(all, IndexOf(all, o.image), ["--mount", MountSpec(claim, CLAIM_PATH, true)]) + ["--claim", CLAIM_PATH]
  }

  lemma ValidateArguments(h: Host, o: Options, job: string, disabled: seq<string>, claim: string)
    requires o.runtime.Container? && h.rooted(job) && h.rooted(claim)
    ensures Validate(h, o, job, disabled, Some(claim)).Ok?
    ensures Validate(h, o, job, disabled, Some(claim)).value.arguments
         == Arguments(o, h.full(job), disabled, h.full(claim))
  {
    var all := Before(o, h.full(job)) + [o.image] + Rest(disabled);
    assert ForJob(h, o, "validate", job, disabled).value.arguments == all;
  }

  lemma MountedTokens(options: seq<RunOption>, spec: string)
    ensures var mounted := options + [Setting("--mount", spec)];
            && Tokens(mounted) == Tokens(options) + ["--mount", spec]
            && SettingsOf(mounted) == SettingsOf(options) + [("--mount", spec)]
  {
    var mount := Setting("--mount", spec);
    TokensAppend(options, [mount]);
    SettingsAppend(options, [mount]);
    OneSetting(mount);
    assert Tokens([mount]) == ["--mount", spec] + Tokens([]);
  }

  lemma MountInserted(o: Options, job: string, disabled: seq<string>, claim: string)
    requires o.image !in Before(o, job)
    ensures Arguments(o, job, disabled, claim)
         == Before(o, job) + ["--mount", MountSpec(claim, CLAIM_PATH, true)] + [o.image]
            + JobTokens("validate", JOB_PATH, disabled, Some(CLAIM_PATH))
  {
    hide RunOptions, Tokens, IndexOf, MountSpec;
    FirstIndex(Before(o, job), o.image, Rest(disabled));
  }

  lemma MountBeforeImage(o: Options, job: string, disabled: seq<string>, claim: string)
    requires ImageName(o.image) && o.image !in Before(o, job)
    ensures ParseDocker(Arguments(o, job, disabled, claim)) == Some(Expected(o, job, disabled, claim))
  {
    hide RunOptions, Tokens, SettingsOf, ParseDocker, IndexOf, Arguments, ShutIn, JobTokens;
    var options, spec := RunOptions(o, Some(job)), MountSpec(claim, CLAIM_PATH, true);
    var arguments := JobTokens("validate", JOB_PATH, disabled, Some(CLAIM_PATH));
    MountInserted(o, job, disabled, claim);
    MountedTokens(options, spec);
    OptionsKnown(o, Some(job));
    assert spec == "type=bind,src=" + claim + ",dst=/claim.json,readonly";
    assert Before(o, job) + ["--mount", spec] == ["run"] + Tokens(options + [Setting("--mount", spec)]);
    RunParses(options + [Setting("--mount", spec)], o.image, arguments);
  }

  /** A token that is no option's name is the value of one. */
  lemma {:induction false} SettingAt(options: seq<RunOption>, j: nat) returns (k: nat)
    requires forall option :: option in options ==> Known(option)
    requires j < |Tokens(options)| && ImageName(Tokens(options)[j])
    ensures k < |options| && options[k].Setting? && options[k].value == Tokens(options)[j]
    ensures |Tokens(options[..k])| + 1 == j
    decreases |options|
  {
    assert Known(options[0]);
    var own := match options[0] case Switch(_) => 1 case Setting(_, _) => 2;
    if j < own {
      k := 0;
    } else {
      assert Tokens(options)[j] == Tokens(options[1..])[j - own];
      var rest := SettingAt(options[1..], j - own);
      k := rest + 1;
      assert options[..k][0] == options[0] && options[..k][1..] == options[1..][..rest];
    }
  }

  lemma TokensSplit(options: seq<RunOption>, k: nat)
    requires k < |options| && options[k].Setting?
    ensures Tokens(options) == Tokens(options[..k]) + [options[k].name, options[k].value] + Tokens(options[k + 1..])
    ensures |SettingsOf(options[..k])| + 1 <= |SettingsOf(options)|
  {
    assert options == options[..k] + options[k..] && options[k..][1..] == options[k + 1..];
    TokensAppend(options[..k], options[k..]);
    SettingsAppend(options[..k], options[k..]);
  }

  /** In the middle of a setting the mount becomes the setting's value, and its description the image. */
  lemma MountInsideSetting(options: seq<RunOption>, k: nat, spec: string, rest: seq<string>)
    requires (forall option :: option in options ==> Known(option)) && k < |options| && options[k].Setting?
    requires ImageName(spec)
    ensures ParseDocker(["run"] + Tokens(options[..k]) + [options[k].name] + ["--mount", spec] + rest)
         == Some(Launch(SettingsOf(options[..k]) + [(options[k].name, "--mount")], spec, rest))
  {
    var name, more := options[k].name, [spec] + rest;
    var arguments := ["run"] + Tokens(options[..k]) + [name] + ["--mount", spec] + rest;
    assert Known(options[k]);
    assert arguments[1..] == Tokens(options[..k]) + ([name, "--mount"] + more);
    ParseRunOptions(options[..k], [name, "--mount"] + more, []);
    assert [] + SettingsOf(options[..k]) == SettingsOf(options[..k]);
    ParseSetting(name, "--mount", more, SettingsOf(options[..k]));
    assert more[0] == spec && more[1..] == rest;
    assert spec !in SWITCHES && spec !in SETTINGS;
  }

  lemma MountElsewhere(o: Options, job: string, disabled: seq<string>, claim: string)
    requires ImageName(o.image) && o.image in Before(o, job)
    ensures ParseDocker(Arguments(o, job, disabled, claim)) != Some(Expected(o, job, disabled, claim))
  {
    var options, spec := RunOptions(o, Some(job)), MountSpec(claim, CLAIM_PATH, true);
    var all := Before(o, job) + [o.image] + Rest(disabled);
    var i := IndexOf(all, o.image);
    var tail := all[i..] + ["--claim", CLAIM_PATH];
    assert Arguments(o, job, disabled, claim) == all[..i] + ["--mount", spec] + tail;
    assert i < |Before(o, job)| by {
      var j :| 0 <= j < |Before(o, job)| && Before(o, job)[j] == o.image;
      assert all[j] == o.image;
    }
    if i == 0 {
      assert Arguments(o, job, disabled, claim)[0] == "--mount";
    } else {
      assert all[i] == Tokens(options)[i - 1];
      OptionsKnown(o, Some(job));
      var k := SettingAt(options, i - 1);
      TokensSplit(options, k);
      assert all[..i] == ["run"] + Tokens(options[..k]) + [options[k].name];
      MountInsideSetting(options, k, spec, tail);
    }
  }

  /** In a container the claim is mounted and named exactly when the image's name equals no earlier
      argument; then the engine checks the mounted job against the mounted claim with exactly the
      keys that were disabled. */
  lemma ContainerValidateUnderstood(h: Host, o: Options, job: string, disabled: seq<string>, claim: string)
    requires o.runtime.Container? && PlainKeys(disabled) && h.rooted(job) && h.rooted(claim) && ImageName(o.image)
    ensures Validate(h, o, job, disabled, Some(claim)).Ok?
    ensures var launch := ParseDocker(Validate(h, o, job, disabled, Some(claim)).value.arguments);
            launch == Some(Expected(o, h.full(job), disabled, h.full(claim))) <==> o.image !in Before(o, h.full(job))
    ensures ParseEngine(Expected(o, h.full(job), disabled, h.full(claim)).arguments)
         == Some(Command("validate", Some(JOB_PATH), Some(CLAIM_PATH), Ordered(disabled)))
  {
    ValidateArguments(h, o, job, disabled, claim);
    JobTokensParse("validate", JOB_PATH, disabled, Some(CLAIM_PATH));
    if o.image in Before(o, h.full(job)) {
      MountElsewhere(o, h.full(job), disabled, h.full(claim));
    } else {
      MountBeforeImage(o, h.full(job), disabled, h.full(claim));
    }
  }

  // ----- what is refused, and what is started --------------------------------------------

  /** Only a path that is not rooted is refused, and then nothing is started. */
  lemma RefusedUnlessRooted(h: Host, o: Options, job: string, disabled: seq<string>, claim: Option<string>)
    ensures var r := Validate(h, o, job, disabled, claim);
            && (r.Ok? <==> h.rooted(job) && (claim.Some? ==> h.rooted(claim.value)))
            && (r.Err? ==> r.error == Refused("OUTPUT_PATH_INVALID"))
    ensures Build(h, o, job, disabled).Ok? <==> h.rooted(job)
    ensures Build(h, o, job, disabled).Err? ==> Build(h, o, job, disabled).error == Refused("OUTPUT_PATH_INVALID")
  {
  }

  /** The container runtime, or an interpreter that runs the engine's package. */
  predicate Starts(o: Options, i: Invocation) {
    match o.runtime
    case Container => i.fileName == o.containerCommand && |i.arguments| > 0 && i.arguments[0] == "run"
    case Process => i.fileName == o.pythonCommand && ["-m", "cad_worker"] <= i.arguments
  }

  lemma StartsTheEngine(h: Host, o: Options, job: string, disabled: seq<string>, claim: Option<string>)
    ensures Starts(o, Describe(o, disabled))
    ensures Build(h, o, job, disabled).Ok? ==> Starts(o, Build(h, o, job, disabled).value)
    ensures Validate(h, o, job, disabled, claim).Ok? && (o.runtime.Process? || claim.None? || o.image != "run") ==>
              Starts(o, Validate(h, o, job, disabled, claim).value)
  {
    if o.runtime.Container? && h.rooted(job) {
      var arguments := ForJob(h, o, "validate", job, disabled).value.arguments;
      assert arguments[0] == "run";
      assert o.image != "run" ==> IndexOf(arguments, o.image) > 0;
    }
  }

  // ----- one command line for one set of keys --------------------------------------------

  predicate InOrder(keys: seq<string>) { forall i, j :: 0 <= i < j < |keys| ==> AtMost(keys[i], keys[j]) }

  lemma {:induction false} AtMostTotal(a: string, b: string)
    ensures AtMost(a, b) || AtMost(b, a)
    ensures AtMost(a, b) && AtMost(b, a) ==> a == b
  {
    if a != [] && b != [] && a[0] == b[0] {
      AtMostTotal(a[1..], b[1..]);
      assert a == [a[0]] + a[1..] && b == [b[0]] + b[1..];
    }
  }

  lemma {:induction false} AtMostFurther(a: string, b: string, c: string)
    requires AtMost(a, b) && AtMost(b, c)
    ensures AtMost(a, c)
  {
    if a != [] && a[0] == b[0] == c[0] { AtMostFurther(a[1..], b[1..], c[1..]); }
  }

  lemma {:induction false} InsertInOrder(key: string, keys: seq<string>)
    requires InOrder(keys)
    ensures InOrder(InsertKey(key, keys))
  {
    if keys != [] {
      if AtMost(key, keys[0]) {
        forall j | 0 <= j < |keys| ensures AtMost(key, keys[j]) {
          if j > 0 { AtMostFurther(key, keys[0], keys[j]); }
        }
      } else {
        AtMostTotal(key, keys[0]);
        InsertInOrder(key, keys[1..]);
        InsertKeyKeeps(key, keys[1..]);
        var rest := InsertKey(key, keys[1..]);
        forall j | 0 <= j < |rest| ensures AtMost(keys[0], rest[j]) {
          assert rest[j] in multiset(rest);
          if rest[j] != key { var i :| 1 <= i < |keys| && keys[i] == rest[j]; }
        }
      }
    }
  }

  lemma {:induction false} OrderedInOrder(keys: seq<string>)
    ensures InOrder(Ordered(keys))
  {
    if keys != [] {
      OrderedInOrder(keys[1..]);
      InsertInOrder(keys[0], Ordered(keys[1..]));
    }
  }

  lemma SameFirst(a: seq<string>, b: seq<string>)
    requires InOrder(a) && InOrder(b) && multiset(a) == multiset(b) && a != [] && b != []
    ensures a[0] == b[0]
  {
    hide AtMost;
    assert a[0] in multiset(b) && b[0] in multiset(a);
    var i :| 0 <= i < |b| && b[i] == a[0];
    var j :| 0 <= j < |a| && a[j] == b[0];
    AtMostTotal(a[0], b[0]);
  }

  lemma {:induction false} OneOrder(a: seq<string>, b: seq<string>)
    requires InOrder(a) && InOrder(b) && multiset(a) == multiset(b)
    ensures a == b
    decreases |a|
  {
    hide AtMost;
    assert |a| == |multiset(a)| == |multiset(b)| == |b|;
    if a != [] {
      SameFirst(a, b);
      assert a == [a[0]] + a[1..] && b == [b[0]] + b[1..];
      assert multiset(a[1..]) == multiset(a) - multiset{a[0]};
      OneOrder(a[1..], b[1..]);
    }
  }

  /** The keys go out in ordinal order, each as often as it was given, so in whatever order they are held
      the command line is the same. */
  lemma SameKeysSameFlags(disabled: seq<string>, again: seq<string>)
    ensures InOrder(Ordered(disabled)) && multiset(Ordered(disabled)) == multiset(disabled)
    ensures multiset(disabled) == multiset(again) ==> Flags(disabled) == Flags(again)
  {
    OrderedInOrder(disabled);
    OrderedInOrder(again);
    OrderedKeeps(disabled);
    OrderedKeeps(again);
    if multiset(disabled) == multiset(again) { OneOrder(Ordered(disabled), Ordered(again)); }
  }
}
