/** Reading the command line back: first the container runtime, then the engine's own parser. What
    was printed is what is understood. */
module CommandLineParse {
  import opened Prelude
  import opened CommandLine

  // ----- the engine's parser -------------------------------------------------------------

  datatype Command = Command(name: string, job: Option<string>, claim: Option<string>, disabled: seq<string>)

  /** A value that could not be taken for an option. */
  predicate Plain(s: string) { s == [] || s[0] != '-' }

  /** `--job` and `--claim` keep the last value given, `--disable` collects. */
  function ParseOptions(tokens: seq<string>, c: Command): Option<Command>
    decreases |tokens|
  {
    if tokens == [] then (if c.job.None? && c.name != "describe" then None else Some(c))
    else if |tokens| < 2 || !Plain(tokens[1]) then None
    else if tokens[0] == "--disable" then ParseOptions(tokens[2..], c.(disabled := c.disabled + [tokens[1]]))
    else if tokens[0] == "--job" && c.name != "describe" then ParseOptions(tokens[2..], c.(job := Some(tokens[1])))
    else if tokens[0] == "--claim" && c.name == "validate" then ParseOptions(tokens[2..], c.(claim := Some(tokens[1])))
    else None
  }

  function ParseEngine(tokens: seq<string>): Option<Command> {
    if tokens == [] || tokens[0] !in {"build", "validate", "describe"} then None
    else ParseOptions(tokens[1..], Command(tokens[0], None, None, []))
  }

  lemma {:induction false} ParseFlags(keys: seq<string>, rest: seq<string>, c: Command)
    requires forall key :: key in keys ==> Plain(key)
    ensures ParseOptions(FlagsFor(keys) + rest, c) == ParseOptions(rest, c.(disabled := c.disabled + keys))
    decreases |keys|
  {
    if keys == [] {
      assert FlagsFor(keys) + rest == rest && c.disabled + keys == c.disabled;
    } else {
      var tokens := FlagsFor(keys) + rest;
      assert tokens[0] == "--disable" && tokens[1] == keys[0];
      assert tokens[2..] == FlagsFor(keys[1..]) + rest;
      ParseFlags(keys[1..], rest, c.(disabled := c.disabled + [keys[0]]));
      assert c.disabled + [keys[0]] + keys[1..] == c.disabled + keys;
    }
  }

  lemma {:induction false} InsertKeyKeeps(key: string, keys: seq<string>)
    ensures multiset(InsertKey(key, keys)) == multiset(keys) + multiset{key}
  {
    if keys != [] && !AtMost(key, keys[0]) {
      InsertKeyKeeps(key, keys[1..]);
      assert keys == [keys[0]] + keys[1..];
    }
  }

  lemma {:induction false} OrderedKeeps(keys: seq<string>)
    ensures multiset(Ordered(keys)) == multiset(keys)
  {
    if keys != [] {
      OrderedKeeps(keys[1..]);
      InsertKeyKeeps(keys[0], Ordered(keys[1..]));
      assert keys == [keys[0]] + keys[1..];
    }
  }

  lemma OrderedMembers(keys: seq<string>, key: string)
    ensures key in Ordered(keys) <==> key in keys
  {
    OrderedKeeps(keys);
    assert key in keys <==> key in multiset(keys);
    assert key in Ordered(keys) <==> key in multiset(Ordered(keys));
  }

  function JobTokens(name: string, job: string, disabled: seq<string>, claim: Option<string>): seq<string> {
    [name, "--job", job] + Flags(disabled) + (if claim.Some? then ["--claim", claim.value] else [])
  }

  lemma ParseJob(name: string, job: string, rest: seq<string>)
    requires (name == "validate" || name == "build") && Plain(job)
    ensures ParseEngine([name, "--job", job] + rest) == ParseOptions(rest, Command(name, Some(job), None, []))
  {
    var tokens := ["--job", job] + rest;
    assert ([name, "--job", job] + rest)[1..] == tokens;
    assert tokens[0] == "--job" && tokens[1] == job && tokens[2..] == rest;
    assert name != "describe";
  }

  lemma ParseClaim(c: Command, claim: string)
    requires c.name == "validate" && c.job.Some? && Plain(claim)
    ensures ParseOptions(["--claim", claim], c) == Some(c.(claim := Some(claim)))
  {
    var tokens := ["--claim", claim];
    assert tokens[0] == "--claim" && tokens[1] == claim && tokens[2..] == [];
  }

  /** What the engine is told is what it understands. */
  lemma JobTokensParse(name: string, job: string, disabled: seq<string>, claim: Option<string>)
    requires name == "validate" || (name == "build" && claim.None?)
    requires Plain(job) && (claim.Some? ==> Plain(claim.value))
    requires forall key :: key in disabled ==> Plain(key)
    ensures ParseEngine(JobTokens(name, job, disabled, claim))
         == Some(Command(name, Some(job), claim, Ordered(disabled)))
  {
    var ending := if claim.Some? then ["--claim", claim.value] else [];
    var c := Command(name, Some(job), None, []);
    assert JobTokens(name, job, disabled, claim) == [name, "--job", job] + (FlagsFor(Ordered(disabled)) + ending);
    ParseJob(name, job, FlagsFor(Ordered(disabled)) + ending);
    forall key | key in Ordered(disabled) ensures Plain(key) { OrderedMembers(disabled, key); }
    ParseFlags(Ordered(disabled), ending, c);
    assert c.disabled + Ordered(disabled) == Ordered(disabled);
    if claim.Some? { ParseClaim(c.(disabled := Ordered(disabled)), claim.value); }
  }

  lemma DescribeTokensParse(disabled: seq<string>)
    requires forall key :: key in disabled ==> Plain(key)
    ensures ParseEngine(["describe"] + Flags(disabled)) == Some(Command("describe", None, None, Ordered(disabled)))
  {
    var tokens := ["describe"] + Flags(disabled);
    assert tokens[1..] == FlagsFor(Ordered(disabled)) + [];
    forall key | key in Ordered(disabled) ensures Plain(key) { OrderedMembers(disabled, key); }
    ParseFlags(Ordered(disabled), [], Command("describe", None, None, []));
    assert [] + Ordered(disabled) == Ordered(disabled);
  }

  // ----- the container runtime -----------------------------------------------------------

  /** What the runtime is asked to start: its settings in order, a switch with no value; the image; and
      the arguments after the image, which are the engine's. */
  datatype Launch = Launch(settings: seq<(string, string)>, image: string, arguments: seq<string>)

  const SWITCHES := {"--rm", "--read-only"}
  const SETTINGS := {"--network", "--tmpfs", "--user", "--mount"}

  /** The first token that is no option is the image; a setting takes the next token whatever it is. */
  function ParseRun(tokens: seq<string>, settings: seq<(string, string)>): Option<Launch>
    decreases |tokens|
  {
    if tokens == [] then None
    else if tokens[0] in SWITCHES then ParseRun(tokens[1..], settings + [(tokens[0], "")])
    else if tokens[0] in SETTINGS then
      (if |tokens| < 2 then None else ParseRun(tokens[2..], settings + [(tokens[0], tokens[1])]))
    else if !Plain(tokens[0]) || tokens[0] == [] then None
    else Some(Launch(settings, tokens[0], tokens[1..]))
  }

  function ParseDocker(arguments: seq<string>): Option<Launch> {
    if arguments == [] || arguments[0] != "run" then None else ParseRun(arguments[1..], [])
  }

  predicate Known(option: RunOption) {
    match option case Switch(name) => name in SWITCHES case Setting(name, _) => name in SETTINGS
  }

  function SettingsOf(options: seq<RunOption>): seq<(string, string)> {
    if options == [] then []
    else [match options[0] case Switch(name) => (name, "") case Setting(name, value) => (name, value)]
         + SettingsOf(options[1..])
  }

  lemma ParseSwitch(name: string, rest: seq<string>, settings: seq<(string, string)>)
    requires name in SWITCHES
    ensures ParseRun([name] + rest, settings) == ParseRun(rest, settings + [(name, "")])
  {
    assert ([name] + rest)[1..] == rest;
  }

  lemma ParseSetting(name: string, value: string, rest: seq<string>, settings: seq<(string, string)>)
    requires name in SETTINGS
    ensures ParseRun([name, value] + rest, settings) == ParseRun(rest, settings + [(name, value)])
  {
    var tokens := [name, value] + rest;
    assert tokens[0] == name && tokens[1] == value && tokens[2..] == rest;
    assert name !in SWITCHES;
  }

  lemma {:induction false} ParseRunOptions(options: seq<RunOption>, rest: seq<string>, settings: seq<(string, string)>)
    requires forall option :: option in options ==> Known(option)
    ensures ParseRun(Tokens(options) + rest, settings) == ParseRun(rest, settings + SettingsOf(options))
    decreases |options|
  {
    if options == [] {
      assert Tokens(options) + rest == rest && settings + SettingsOf(options) == settings;
    } else {
      var more := Tokens(options[1..]) + rest;
      assert Known(options[0]);
      match options[0]
      case Switch(name) =>
        assert Tokens(options) + rest == [name] + more;
        ParseSwitch(name, more, settings);
        ParseRunOptions(options[1..], rest, settings + [(name, "")]);
        assert settings + [(name, "")] + SettingsOf(options[1..]) == settings + SettingsOf(options);
      case Setting(name, value) =>
        assert Tokens(options) + rest == [name, value] + more;
        ParseSetting(name, value, more, settings);
        ParseRunOptions(options[1..], rest, settings + [(name, value)]);
        assert settings + [(name, value)] + SettingsOf(options[1..]) == settings + SettingsOf(options);
    }
  }

  predicate ImageName(image: string) { image != [] && image[0] != '-' }

  lemma RunParses(options: seq<RunOption>, image: string, arguments: seq<string>)
    requires (forall option :: option in options ==> Known(option)) && ImageName(image)
    ensures ParseDocker(["run"] + Tokens(options) + [image] + arguments)
         == Some(Launch(SettingsOf(options), image, arguments))
  {
    var rest := [image] + arguments;
    assert (["run"] + Tokens(options) + [image] + arguments)[1..] == Tokens(options) + rest;
    ParseRunOptions(options, rest, []);
    assert [] + SettingsOf(options) == SettingsOf(options);
    assert rest[0] !in SWITCHES && rest[0] !in SETTINGS && rest[1..] == arguments;
  }
}
