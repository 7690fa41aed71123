/**
 * src/docker/compose.go: the argument list RunCompose hands to `docker`, the service
 * RunWpCli runs WP-CLI in, and the WP-CLI argument prefix. Whether stdout is a
 * terminal (isInteractive) is a parameter, and the compose file's parsed `services`
 * keys stand for the YAML.
 */
module Compose {
  import opened Wrappers

  function BaseArgs(composePath: string): seq<string> {
    ["compose", "-f", composePath]
  }

  /**
   * The arguments RunCompose passes to `docker`. They always start with
   * `compose -f <path>`; when stdout is not a terminal and the command is `exec`, a
   * `-T` is placed right after that `exec`, and otherwise the caller's arguments
   * follow unchanged. Taking the `-T` out again gives back the plain list.
   */
  function ComposeArgv(composePath: string, args: seq<string>, interactive: bool): (argv: seq<string>)
    ensures |argv| >= 3 && argv[..3] == BaseArgs(composePath)
    ensures argv != BaseArgs(composePath) + args <==> !interactive && |args| > 0 && args[0] == "exec"
    ensures argv != BaseArgs(composePath) + args ==>
              |argv| == |args| + 4 && argv[3] == "exec" && argv[4] == "-T"
              && argv[..4] + argv[5..] == BaseArgs(composePath) + args
  {
    var base := BaseArgs(composePath);
    if |args| > 0 && args[0] == "exec" && !interactive then
      var argv := base + ["exec", "-T"] + args[1..];
      assert |argv| != |base + args|;
      assert argv[..4] + argv[5..] == base + args by {
        assert argv[..4] == base + ["exec"];
        assert argv[5..] == args[1..];
        assert args == ["exec"] + args[1..];
      }
      argv
    else base + args
  }

  /** Number of occurrences of `x` in `s`. */
  function Count(s: seq<string>, x: string): nat
    decreases |s|
  {
    if s == [] then 0 else (if s[0] == x then 1 else 0) + Count(s[1..], x)
  }

  lemma {:induction false} CountAppend(s: seq<string>, t: seq<string>, x: string)
    ensures Count(s + t, x) == Count(s, x) + Count(t, x)
    decreases |s|
  {
    if s == [] {
      assert s + t == t;
    } else {
      CountAppend(s[1..], t, x);
      assert (s + t)[1..] == s[1..] + t;
    }
  }

  /** RunCompose adds at most one `-T` beyond those in the compose path and the caller's arguments. */
  lemma ComposeArgvOneMoreT(composePath: string, args: seq<string>, interactive: bool)
    ensures Count(ComposeArgv(composePath, args, interactive), "-T")
            <= Count(BaseArgs(composePath) + args, "-T") + 1
  {
    var argv := ComposeArgv(composePath, args, interactive);
    if argv != BaseArgs(composePath) + args {
      assert argv == argv[..4] + [argv[4]] + argv[5..];
      CountAppend(argv[..4] + [argv[4]], argv[5..], "-T");
      CountAppend(argv[..4], [argv[4]], "-T");
      CountAppend(argv[..4], argv[5..], "-T");
    }
  }

  /**
   * getContainerName over the outcome of reading and parsing the compose file
   * (`Ok(keys of services)` or the read/parse error): `php` is preferred, then
   * `litespeed`, otherwise "no suitable container found".
   */
  function ContainerName(services: Result<set<string>, string>): (r: Result<string, string>)
    ensures services.Ok? ==>
              (r == Ok("php") <==> "php" in services.value)
              && (r == Ok("litespeed") <==> "php" !in services.value && "litespeed" in services.value)
              && (r == Err("no suitable container found") <==> "php" !in services.value && "litespeed" !in services.value)
    ensures services.Err? ==> r == Err(services.error)
  {
    match services
    case Err(e) => Err(e)
    case Ok(names) =>
      if "php" in names then Ok("php")
      else if "litespeed" in names then Ok("litespeed")
      else Err("no suitable container found")
  }

  /**
   * RunWpCli: the `docker` arguments it runs, or the container-lookup error, which
   * is returned before any compose call. The WP-CLI arguments follow
   * `exec <service> wp` (with `-T` after `exec` when stdout is not a terminal).
   */
  function WpCliArgv(composePath: string, services: Result<set<string>, string>, args: seq<string>, interactive: bool)
    : (r: Result<seq<string>, string>)
    ensures ContainerName(services).Err? <==> r.Err?
    ensures r.Err? ==> r.error == ContainerName(services).error
    ensures r.Ok? ==>
              var c := ContainerName(services).value;
              r.value == BaseArgs(composePath) + (if interactive then ["exec", c, "wp"] else ["exec", "-T", c, "wp"]) + args
  {
    match ContainerName(services)
    case Err(e) => Err(e)
    case Ok(c) =>
      var wpArgs := ["exec", c, "wp"] + args;
      var argv := ComposeArgv(composePath, wpArgs, interactive);
      assert wpArgs[1..] == [c, "wp"] + args;
      Ok(argv)
  }
}
