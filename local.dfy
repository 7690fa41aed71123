/**
 * src/commands/local.go: the commands that act on the site in the current
 * directory (start, stop, restart, exec, logs). Each one looks up the compose file
 * (Files.FindComposeFile; here its result is the parameter `composePath`, "" for none)
 * and hands a fixed or derived argument list to RunCompose, whose returned error is
 * the parameter `composeError`.
 */
module Local {
  import opened Wrappers
  import GoFmt
  import Compose

  datatype Command = Start | Stop | Restart | Exec | Logs

  /** A line written through the `color` package: its colour and its format text. */
  datatype Line = Red(text: string) | Yellow(text: string) | Green(text: string)

  /**
   * One run of a command: the arguments given to RunCompose after the compose path
   * (None when RunCompose is not called), the lines printed, and whether the run ends
   * in os.Exit(1).
   */
  datatype Outcome = Outcome(compose: Option<seq<string>>, output: seq<Line>, exitsNonZero: bool)

  /** The services `ploy exec` accepts as its first word. */
  predicate IsService(name: string) {
    name == "php" || name == "nginx" || name == "litespeed"
  }

  /**
   * The compose arguments of `ploy exec <args>`: `exec`, then the service (the first
   * word when it names one, `php` otherwise), then the remaining words in order.
   */
  function ExecArgs(args: seq<string>): (r: seq<string>)
    requires args != []
    ensures |r| >= 2 && r[0] == "exec" && IsService(r[1])
    ensures IsService(args[0]) ==> r[1] == args[0] && r[2..] == args[1..]
    ensures !IsService(args[0]) ==> r[1] == "php" && r[2..] == args
  {
    if IsService(args[0]) then ["exec", args[0]] + args[1..]
    else ["exec", "php"] + args
  }

  /** The compose arguments of `ploy logs [container]`. */
  function LogsArgs(args: seq<string>): (r: seq<string>)
    requires |args| <= 1
    ensures |r| == |args| + 1 && r[0] == "logs" && r[1..] == args
  {
    ["logs"] + args
  }

  /** The message printed when no compose file is found (restart, exec and logs omit the full stop). */
  function NoComposeFile(cmd: Command): string {
    if cmd == Start || cmd == Stop then "No docker-compose.yml file found."
    else "No docker-compose.yml file found"
  }

  /** The text printed in red when RunCompose fails. */
  function FailureText(cmd: Command): string {
    match cmd
    case Start => "Error starting container:"
    case Stop => "Error stopping container:"
    case Restart => "Error restarting site using Docker Compose setup:"
    case Exec => "Error executing command: %v\n"
    case Logs => "Error showing logs: %v\n"
  }

  /** cobra.MaximumNArgs(1) on `logs`: the error text cobra returns before the command runs. */
  function ArgsError(cmd: Command, args: seq<string>): (r: Option<string>)
    ensures r.Some? <==> cmd == Logs && |args| > 1
  {
    if cmd == Logs && |args| > 1 then
      Some("accepts at most 1 arg(s), received " + GoFmt.FormatInt(|args|))
    else None
  }

  /**
   * One run of a local command. An argument-count error from cobra comes first; a
   * missing compose file prints its message and calls nothing (and `logs` exits
   * with status 1); `exec` without words prints "No command provided". Otherwise
   * the command's argument list goes to RunCompose, and a failure is printed in
   * red (and `logs` exits with status 1). `restart` reports success in every case.
   */
  function Run(cmd: Command, composePath: string, args: seq<string>, composeError: Option<string>)
    : (r: Result<Outcome, string>)
    ensures r.Err? <==> ArgsError(cmd, args).Some?
    ensures r.Err? ==> r.error == ArgsError(cmd, args).value
    ensures r.Ok? && composePath == "" ==>
              r.value.compose == None && r.value.output == [Red(NoComposeFile(cmd))]
              && (r.value.exitsNonZero <==> cmd == Logs)
    ensures r.Ok? && r.value.compose.Some? ==> composePath != ""
    ensures r.Ok? && composePath != "" ==>
              (r.value.compose.None? <==> cmd == Exec && args == [])
    ensures r.Ok? && composePath != "" && cmd == Exec && args == [] ==>
              r.value.output == [Yellow("No command provided")] && !r.value.exitsNonZero
    ensures r.Ok? && cmd == Start && composePath != "" ==> r.value.compose == Some(["up", "-d"])
    ensures r.Ok? && cmd == Stop && composePath != "" ==> r.value.compose == Some(["down"])
    ensures r.Ok? && cmd == Restart && composePath != "" ==> r.value.compose == Some(["restart"])
    ensures r.Ok? && cmd == Exec && composePath != "" && args != [] ==> r.value.compose == Some(ExecArgs(args))
    ensures r.Ok? && cmd == Logs && composePath != "" ==> r.value.compose == Some(LogsArgs(args))
    ensures r.Ok? && r.value.compose.Some? ==>
              (Red(FailureText(cmd)) in r.value.output <==> composeError.Some?)
    ensures r.Ok? && r.value.exitsNonZero ==> cmd == Logs
  {
    if ArgsError(cmd, args).Some? then Err(ArgsError(cmd, args).value)
    else if composePath == "" then Ok(Outcome(None, [Red(NoComposeFile(cmd))], cmd == Logs))
    else if cmd == Exec && args == [] then Ok(Outcome(None, [Yellow("No command provided")], false))
    else
      var composeArgs :=
        match cmd
        case Start => ["up", "-d"]
        case Stop => ["down"]
        case Restart => ["restart"]
        case Exec => ExecArgs(args)
        case Logs => LogsArgs(args);
      var failure := if composeError.Some? then [Red(FailureText(cmd))] else [];
      var success := if cmd == Restart then [Green("Site restarted successfully")] else [];
      Ok(Outcome(Some(composeArgs), failure + success, cmd == Logs && composeError.Some?))
  }

  /** `restart` prints "Site restarted successfully" as its last line whether or not RunCompose failed. */
  lemma RestartAlwaysReportsSuccess(composePath: string, args: seq<string>, composeError: Option<string>)
    requires composePath != ""
    ensures var r := Run(Restart, composePath, args, composeError);
            r.Ok? && |r.value.output| > 0 && r.value.output[|r.value.output| - 1] == Green("Site restarted successfully")
            && (composeError.Some? ==> Red(FailureText(Restart)) in r.value.output)
  {
  }

  /** `logs` exits with status 1 exactly when there is no compose file or RunCompose fails. */
  lemma LogsExitStatus(composePath: string, args: seq<string>, composeError: Option<string>)
    requires |args| <= 1
    ensures var r := Run(Logs, composePath, args, composeError);
            r.Ok? && (r.value.exitsNonZero <==> composePath == "" || composeError.Some?)
  {
  }

  /**
   * What `ploy exec` finally asks `docker` to run when stdout is not a terminal:
   * `compose -f <path> exec -T <service> ...`, with exactly one `-T`, placed right after `exec`.
   */
  lemma ExecDockerArgv(composePath: string, args: seq<string>)
    requires composePath != "" && args != []
    ensures var r := Run(Exec, composePath, args, None);
            var e := ExecArgs(args);
            r.Ok? && r.value.compose == Some(e)
            && Compose.ComposeArgv(composePath, e, false) == Compose.BaseArgs(composePath) + ["exec", "-T"] + e[1..]
            && Compose.ComposeArgv(composePath, e, true) == Compose.BaseArgs(composePath) + e
  {
    var e := ExecArgs(args);
    var argv := Compose.ComposeArgv(composePath, e, false);
    assert argv[..4] + argv[5..] == Compose.BaseArgs(composePath) + e;
    assert argv[5..] == e[1..] by {
      assert (Compose.BaseArgs(composePath) + e)[4..] == e[1..];
      assert (argv[..4] + argv[5..])[4..] == argv[5..];
    }
    assert argv == argv[..3] + [argv[3], argv[4]] + argv[5..];
  }
}
