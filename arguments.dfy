/**
  The command-line surface of the heartbeat client: the flags each command
  declares with their defaults, the command table that dispatches to the
  controller, and the validation that turns the parsed flag values into an
  `OpsArgs` record. Process exit on invalid input is a `Failure` carrying the
  message that would have been logged.
 */
module Arguments {
  import opened Wrappers

  /** Go's time.Duration: a count of nanoseconds. */
  type Duration = int

  const Second: Duration := 1_000_000_000

  /** The messages handed to the exit hook. The second keeps the source's spelling. */
  const MandatoryFlags := "[apiKey] and [name] are mandatory"
  const IntervalWrong := "[intervalUnit] can only be one of the following: mintes, hours or days"

  /** The interval units the validation admits besides the empty string. */
  const IntervalUnits: set<string> := {"minutes", "hours", "days"}

  /** A flag declaration: its long name, its one-letter alias ("" for none) and its default. */
  datatype Flag =
    | StringFlag(name: string, alias: string, text: string)
    | IntFlag(name: string, alias: string, number: int)
    | DurationFlag(name: string, alias: string, span: Duration)
    | BoolFlag(name: string, alias: string)

  const SharedFlags: seq<Flag> := [StringFlag("apiKey", "k", ""), StringFlag("name", "n", "")]

  const LoopFlags: seq<Flag> := [DurationFlag("loopInterval", "l", 60 * Second)]

  const StartFlags: seq<Flag> :=
    [StringFlag("description", "d", ""), IntFlag("interval", "i", 10), StringFlag("intervalUnit", "u", "minutes")]

  /** The controller operation a command runs. */
  datatype Action =
    | StartHeartbeatAndSend
    | StartHeartbeatLoop
    | StopHeartbeat
    | SendHeartbeat
    | SendHeartbeatLoop

  datatype Command = Command(name: string, flags: seq<Flag>, action: Action)

  const Commands: seq<Command> := [
    Command("start", StartFlags, StartHeartbeatAndSend),
    Command("startLoop", StartFlags + LoopFlags, StartHeartbeatLoop),
    Command("stop", [BoolFlag("delete", "")], StopHeartbeat),
    Command("send", [], SendHeartbeat),
    Command("sendLoop", LoopFlags, SendHeartbeatLoop)
  ]

  /** The command registered under `name`, if any. */
  function FindCommand(cmds: seq<Command>, name: string): (r: Option<Command>)
    ensures r.Some? ==> r.value in cmds && r.value.name == name
    ensures r.None? ==> forall c :: c in cmds ==> c.name != name
  {
    if cmds == [] then None
    else if cmds[0].name == name then Some(cmds[0])
    else FindCommand(cmds[1..], name)
  }

  /** The arguments every controller operation receives. */
  datatype OpsArgs = OpsArgs(
    apiKey: string,
    name: string,
    description: string,
    interval: int,
    intervalUnit: string,
    loopInterval: Duration,
    delete: bool)

  /**
    What the command-line context returns for each flag the validation reads:
    the two global strings and the command's own flags (an undeclared flag
    reads as its type's zero value).
   */
  datatype Context = Context(
    apiKey: string,
    name: string,
    description: string,
    interval: int,
    intervalUnit: string,
    loopInterval: Duration,
    delete: bool)

  /** The invariant of a configuration the controller may run with. */
  predicate Valid(a: OpsArgs) {
    a.apiKey != "" && a.name != "" && (a.intervalUnit == "" || a.intervalUnit in IntervalUnits)
  }

  /**
    Validates the flag values: both mandatory strings first, then the interval
    unit; on success every field is copied over in declaration order.
   */
  function ExtractArgs(c: Context): (r: Result<OpsArgs, string>)
    ensures c.apiKey == "" || c.name == "" ==> r == Failure(MandatoryFlags)
    ensures c.apiKey != "" && c.name != "" && c.intervalUnit != "" && c.intervalUnit !in IntervalUnits
            ==> r == Failure(IntervalWrong)
    ensures r.Success? ==> Valid(r.value)
    ensures r.Success? ==> ContextOf(r.value) == c
  {
    if c.apiKey == "" || c.name == "" then
      Failure(MandatoryFlags)
    else if c.intervalUnit != ""
         && !(c.intervalUnit == "minutes" || c.intervalUnit == "hours" || c.intervalUnit == "days") then
      Failure(IntervalWrong)
    else
      Success(OpsArgs(c.apiKey, c.name, c.description, c.interval, c.intervalUnit, c.loopInterval, c.delete))
  }

  /** The flag values that would describe `a`. */
  function ContextOf(a: OpsArgs): Context {
    Context(a.apiKey, a.name, a.description, a.interval, a.intervalUnit, a.loopInterval, a.delete)
  }

  /** Validation accepts exactly the valid configurations, and gives them back unchanged. */
  lemma ExtractArgsRoundTrip(a: OpsArgs)
    ensures ExtractArgs(ContextOf(a)).Success? <==> Valid(a)
    ensures Valid(a) ==> ExtractArgs(ContextOf(a)) == Success(a)
  {
  }

  /** The empty unit and each of the three named units pass; any other unit is refused. */
  lemma IntervalUnitRule(c: Context)
    requires c.apiKey != "" && c.name != ""
    ensures ExtractArgs(c).Success? <==> c.intervalUnit in {"", "minutes", "hours", "days"}
  {
  }

  /** The default of a string flag named `name` among `flags`, or "" when it is not declared. */
  function StringDefault(flags: seq<Flag>, name: string): string {
    if flags == [] then ""
    else if flags[0].StringFlag? && flags[0].name == name then flags[0].text
    else StringDefault(flags[1..], name)
  }

  /** The default of an int flag named `name` among `flags`, or 0 when it is not declared. */
  function IntDefault(flags: seq<Flag>, name: string): int {
    if flags == [] then 0
    else if flags[0].IntFlag? && flags[0].name == name then flags[0].number
    else IntDefault(flags[1..], name)
  }

  /** The default of a duration flag named `name` among `flags`, or 0 when it is not declared. */
  function DurationDefault(flags: seq<Flag>, name: string): Duration {
    if flags == [] then 0
    else if flags[0].DurationFlag? && flags[0].name == name then flags[0].span
    else DurationDefault(flags[1..], name)
  }

  /** The flag values a command sees when only the global flags are given on the command line. */
  function Invocation(cmd: Command, apiKey: string, name: string): Context {
    Context(apiKey, name,
            StringDefault(cmd.flags, "description"),
            IntDefault(cmd.flags, "interval"),
            StringDefault(cmd.flags, "intervalUnit"),
            DurationDefault(cmd.flags, "loopInterval"),
            false)
  }

  /** Leaving out either global flag leaves its empty default, which validation refuses for every command. */
  lemma {:induction false} MissingGlobalsRefused(cmd: Command, apiKey: string, name: string)
    requires apiKey == StringDefault(SharedFlags, "apiKey") || name == StringDefault(SharedFlags, "name")
    ensures ExtractArgs(Invocation(cmd, apiKey, name)) == Failure(MandatoryFlags)
  {
    assert StringDefault(SharedFlags, "apiKey") == "";
    assert StringDefault(SharedFlags, "name") == "";
  }

  /**
    With both global flags given, every command's defaults pass validation:
    `start` and `startLoop` run with interval 10 in minutes, the loop commands
    tick every 60 seconds, and the commands without start flags send an empty
    unit and a zero interval.
   */
  lemma {:induction false} DefaultsAccepted(i: nat, apiKey: string, name: string)
    requires i < |Commands|
    requires apiKey != "" && name != ""
    ensures ExtractArgs(Invocation(Commands[i], apiKey, name)).Success?
    ensures var a := ExtractArgs(Invocation(Commands[i], apiKey, name)).value;
            && a.description == ""
            && (a.interval == 10 && a.intervalUnit == "minutes" <==> Commands[i].action in {StartHeartbeatAndSend, StartHeartbeatLoop})
            && (a.interval == 0 && a.intervalUnit == "" <==> Commands[i].action !in {StartHeartbeatAndSend, StartHeartbeatLoop})
            && (a.loopInterval == 60 * Second <==> Commands[i].action in {StartHeartbeatLoop, SendHeartbeatLoop})
            && (a.loopInterval == 0 <==> Commands[i].action !in {StartHeartbeatLoop, SendHeartbeatLoop})
            && !a.delete
  {
    var cmd := Commands[i];
    var f := cmd.flags;
    if i == 0 {
      assert f[1..][1..][1..] == [];
      assert StringDefault(f, "description") == "";
      assert IntDefault(f, "interval") == 10;
      assert StringDefault(f, "intervalUnit") == "minutes";
      assert DurationDefault(f, "loopInterval") == 0;
    } else if i == 1 {
      assert f[1..][1..][1..][1..] == [];
      assert StringDefault(f, "description") == "";
      assert IntDefault(f, "interval") == 10;
      assert StringDefault(f[1..][1..], "intervalUnit") == "minutes";
      assert DurationDefault(f[1..][1..][1..], "loopInterval") == 60 * Second;
      assert DurationDefault(f[1..], "loopInterval") == 60 * Second;
    } else if i == 2 {
      assert f[1..] == [];
      assert StringDefault(f, "description") == "" && StringDefault(f, "intervalUnit") == "";
      assert IntDefault(f, "interval") == 0 && DurationDefault(f, "loopInterval") == 0;
    } else if i == 4 {
      assert f == [DurationFlag("loopInterval", "l", 60 * Second)];
      assert f[1..] == [];
      assert StringDefault(f, "description") == "" && StringDefault(f, "intervalUnit") == "";
      assert IntDefault(f, "interval") == 0 && DurationDefault(f, "loopInterval") == 60 * Second;
    }
  }

  /** The first command carrying `name` is the one found. */
  lemma {:induction false} FindAt(cmds: seq<Command>, i: nat, name: string)
    requires i < |cmds| && cmds[i].name == name
    requires forall j :: 0 <= j < i ==> cmds[j].name != name
    ensures FindCommand(cmds, name) == Some(cmds[i])
  {
    if i > 0 {
      FindAt(cmds[1..], i - 1, name);
    }
  }

  /** Each command name dispatches to its operation. */
  lemma CommandDispatch()
    ensures FindCommand(Commands, "start") == Some(Commands[0]) && Commands[0].action == StartHeartbeatAndSend
    ensures FindCommand(Commands, "startLoop") == Some(Commands[1]) && Commands[1].action == StartHeartbeatLoop
    ensures FindCommand(Commands, "stop") == Some(Commands[2]) && Commands[2].action == StopHeartbeat
    ensures FindCommand(Commands, "send") == Some(Commands[3]) && Commands[3].action == SendHeartbeat
    ensures FindCommand(Commands, "sendLoop") == Some(Commands[4]) && Commands[4].action == SendHeartbeatLoop
  {
    var names := ["start", "startLoop", "stop", "send", "sendLoop"];
    assert forall i :: 0 <= i < 5 ==> Commands[i].name == names[i];
    assert forall i, j :: 0 <= j < i < 5 ==> names[j] != names[i] by {
      assert |"start"| != |"startLoop"|;
      assert "start"[2] != "stop"[2] && "startLoop"[2] != "stop"[2];
      assert "start"[1] != "send"[1] && "start"[1] != "sendLoop"[1];
      assert "startLoop"[1] != "send"[1] && "startLoop"[1] != "sendLoop"[1];
      assert "stop"[1] != "send"[1] && "stop"[1] != "sendLoop"[1];
      assert |"send"| != |"sendLoop"|;
    }
    FindAt(Commands, 0, "start");
    FindAt(Commands, 1, "startLoop");
    FindAt(Commands, 2, "stop");
    FindAt(Commands, 3, "send");
    FindAt(Commands, 4, "sendLoop");
  }

  /** Whether `flags` declares a flag named `name`. */
  predicate Declared(flags: seq<Flag>, name: string) {
    exists f :: f in flags && f.name == name
  }

  /** The flag values a context for `cmd` can return: every flag the command does not declare is at its zero value. */
  predicate FitsFlags(cmd: Command, c: Context) {
    && (!Declared(cmd.flags, "description") ==> c.description == "")
    && (!Declared(cmd.flags, "interval") ==> c.interval == 0)
    && (!Declared(cmd.flags, "intervalUnit") ==> c.intervalUnit == "")
    && (!Declared(cmd.flags, "loopInterval") ==> c.loopInterval == 0)
    && (!Declared(cmd.flags, "delete") ==> !c.delete)
  }

  /** An undeclared flag's default lookup gives the zero value. */
  lemma {:induction false} UndeclaredDefaults(flags: seq<Flag>, name: string)
    requires !Declared(flags, name)
    ensures StringDefault(flags, name) == "" && IntDefault(flags, name) == 0 && DurationDefault(flags, name) == 0
  {
    if flags != [] {
      assert flags[0] in flags;
      assert !Declared(flags[1..], name) by {
        forall f | f in flags[1..] ensures f.name != name {
          assert f in flags;
        }
      }
      UndeclaredDefaults(flags[1..], name);
    }
  }

  /** An invocation with only the global flags given is a context its command can return. */
  lemma InvocationFitsFlags(cmd: Command, apiKey: string, name: string)
    ensures FitsFlags(cmd, Invocation(cmd, apiKey, name))
  {
    if !Declared(cmd.flags, "description") { UndeclaredDefaults(cmd.flags, "description"); }
    if !Declared(cmd.flags, "interval") { UndeclaredDefaults(cmd.flags, "interval"); }
    if !Declared(cmd.flags, "intervalUnit") { UndeclaredDefaults(cmd.flags, "intervalUnit"); }
    if !Declared(cmd.flags, "loopInterval") { UndeclaredDefaults(cmd.flags, "loopInterval"); }
  }

  /**
    Only a command that declares the unit flag can be refused for its unit:
    stop, send and sendLoop accept every context with both globals set.
   */
  lemma UnitRefusedOnlyWhereDeclared(cmd: Command, c: Context)
    requires FitsFlags(cmd, c)
    requires c.apiKey != "" && c.name != ""
    ensures ExtractArgs(c).Failure? ==> Declared(cmd.flags, "intervalUnit")
    ensures !Declared(cmd.flags, "intervalUnit") ==> ExtractArgs(c).Success?
  {
  }

  /** Of the five commands, exactly start and startLoop declare the unit flag. */
  lemma UnitDeclaredByStartCommandsOnly()
    ensures Declared(Commands[0].flags, "intervalUnit") && Declared(Commands[1].flags, "intervalUnit")
    ensures !Declared(Commands[2].flags, "intervalUnit") && !Declared(Commands[3].flags, "intervalUnit")
    ensures !Declared(Commands[4].flags, "intervalUnit")
  {
    assert Commands[0].flags[2] == StringFlag("intervalUnit", "u", "minutes");
    assert Commands[1].flags[2] == StringFlag("intervalUnit", "u", "minutes");
  }
}
