/** The command line that starts the engine, built one argument at a time. */
module CommandLine {
  import opened Prelude

  datatype Runtime = Container | Process

  datatype Options = Options(
    runtime: Runtime,
    containerUser: Option<string>,
    containerCommand: string,
    image: string,
    pythonCommand: string)

  /** The host's file paths: which are rooted, and their absolute form. */
  datatype Host = Host(rooted: string -> bool, full: string -> string)

  datatype Invocation = Invocation(fileName: string, arguments: seq<string>)

  const JOB_PATH := "/work"
  const CLAIM_PATH := "/claim.json"

  // ----- disabled keys, in order ---------------------------------------------------------

  /** Ordinal order of strings. */
  predicate AtMost(a: string, b: string) {
    if a == [] then true
    else if b == [] then false
    else if a[0] != b[0] then a[0] < b[0]
    else AtMost(a[1..], b[1..])
  }

  function InsertKey(key: string, keys: seq<string>): seq<string> {
    if keys == [] || AtMost(key, keys[0]) then [key] + keys else [keys[0]] + InsertKey(key, keys[1..])
  }

  function Ordered(keys: seq<string>): seq<string> {
    if keys == [] then [] else InsertKey(keys[0], Ordered(keys[1..]))
  }

  function FlagsFor(ordered: seq<string>): seq<string> {
    if ordered == [] then [] else ["--disable", ordered[0]] + FlagsFor(ordered[1..])
  }

  function Flags(disabled: seq<string>): seq<string> { FlagsFor(Ordered(disabled)) }

  // ----- the argument list ---------------------------------------------------------------

  function MountSpec(source: string, target: string, readOnly: bool): string {
    "type=bind" + "," + ("src=" + source + "," + MountTarget(target, readOnly))
  }

  function MountTarget(target: string, readOnly: bool): string {
    if readOnly then "dst=" + target + "," + "readonly" else "dst=" + target
  }

  /** Options of the container runtime, before the image. */
  datatype RunOption = Switch(name: string) | Setting(name: string, value: string)

  function Tokens(options: seq<RunOption>): seq<string> {
    if options == [] then []
    else
      (match options[0] case Switch(name) => [name] case Setting(name, value) => [name, value])
      + Tokens(options[1..])
  }

  function RunOptions(o: Options, job: Option<string>): seq<RunOption> {
    [Switch("--rm"), Switch("--read-only"), Setting("--network", "none"), Setting("--tmpfs", "/tmp")]
    + (if o.containerUser.Some? && o.containerUser.value != [] then [Setting("--user", o.containerUser.value)] else [])
    + (if job.Some? then [Setting("--mount", MountSpec(job.value, JOB_PATH, false))] else [])
  }

  function ContainerPrefix(o: Options, job: Option<string>): seq<string> {
    ["run"] + Tokens(RunOptions(o, job)) + [o.image]
  }

  function Describe(o: Options, disabled: seq<string>): Invocation {
    if o.runtime.Container?
    then Invocation(o.containerCommand, ContainerPrefix(o, None) + ["describe"] + Flags(disabled))
    else Invocation(o.pythonCommand, ["-m", "cad_worker", "describe"] + Flags(disabled))
  }

  function ForJob(h: Host, o: Options, command: string, job: string,
                  disabled: seq<string>): Result<Invocation, Failure>
  {
    if !h.rooted(job) then Err(Refused("OUTPUT_PATH_INVALID"))
    else if o.runtime.Container? then
      Ok(Invocation(o.containerCommand,
                    ContainerPrefix(o, Some(h.full(job))) + [command, "--job", JOB_PATH] + Flags(disabled)))
    else
      Ok(Invocation(o.pythonCommand, ["-m", "cad_worker", command, "--job", h.full(job)] + Flags(disabled)))
  }

  function Build(h: Host, o: Options, job: string, disabled: seq<string>): Result<Invocation, Failure> {
    ForJob(h, o, "build", job, disabled)
  }

  function IndexOf(s: seq<string>, x: string): (i: nat)
    ensures i <= |s| && x !in s[..i] && (i < |s| ==> s[i] == x)
  {
    if s == [] then 0 else if s[0] == x then 0 else 1 + IndexOf(s[1..], x)
  }

  function InsertAt(s: seq<string>, i: nat, more: seq<string>): seq<string>
    requires i <= |s|
  {
    s[..i] + more + s[i..]
  }

  /** The claim's mount goes in before the first argument that equals the image. */
  function WithClaim(o: Options, invocation: Invocation, claim: string): Invocation {
    if o.runtime.Process? then Invocation(invocation.fileName, invocation.arguments + ["--claim", claim])
    else
      var arguments := InsertAt(invocation.arguments, IndexOf(invocation.arguments, o.image),
                                ["--mount", MountSpec(claim, CLAIM_PATH, true)]);
      Invocation(invocation.fileName, arguments + ["--claim", CLAIM_PATH])
  }

  function Validate(h: Host, o: Options, job: string, disabled: seq<string>,
                    claim: Option<string>): Result<Invocation, Failure>
  {
    match ForJob(h, o, "validate", job, disabled)
    case Err(e) => Err(e)
    case Ok(invocation) =>
      if claim.None? then Ok(invocation)
      else if !h.rooted(claim.value) then Err(Refused("OUTPUT_PATH_INVALID"))
      else Ok(WithClaim(o, invocation, h.full(claim.value)))
  }

  // ----- the echo ------------------------------------------------------------------------

  ghost predicate FlagsApplied(asked: seq<string>, applied: seq<string>) {
    forall key :: key in asked <==> key in applied
  }

  /** The flags the engine acted on are the flags it was given, or the answer is refused. */
  method RequireFlagsWereApplied(asked: seq<string>, applied: seq<string>) returns (r: Option<Failure>)
    ensures r == if FlagsApplied(asked, applied) then None else Some(Refused("ENGINE_FLAGS_NOT_APPLIED"))
  {
    var expected := set key | key in asked;
    var found := set key | key in applied;
    if expected == found {
      assert forall key :: (key in asked <==> key in expected) && (key in applied <==> key in found);
      return None;
    }
    assert exists key :: (key in expected) != (key in found);
    r := Some(Refused("ENGINE_FLAGS_NOT_APPLIED"));
  }
}
