/**
 * src/commands/services.go: reading the MySQL service's details out of `docker`
 * output, the `services details` dispatch, and the placeholder substitution of
 * `services install mysql`. Each `docker` call is a lookup in `run`, which maps an
 * argument list (the program name first) to its output or its error text.
 */
module Services {
  import opened Wrappers
  import opened GoStrings
  import GoPaths
  import opened Effects

  type Details = map<string, string>

  /** The details field an environment key fills, if any. */
  function FieldFor(key: string): (f: Option<string>)
    ensures f.Some? <==> key in {"MYSQL_ROOT_PASSWORD", "MYSQL_USER", "MYSQL_DATABASE"}
    ensures f.Some? ==> f.value in {"Password", "User", "Database"}
  {
    if key == "MYSQL_ROOT_PASSWORD" then Some("Password")
    else if key == "MYSQL_USER" then Some("User")
    else if key == "MYSQL_DATABASE" then Some("Database")
    else None
  }

  /** The field a `KEY=VALUE` line sets and the value, split at the first `=`; None for lines that set nothing. */
  function LineSetting(line: string): (r: Option<(string, string)>)
    ensures r.Some? <==> exists key, value :: line == key + "=" + value && '=' !in key && FieldFor(key).Some?
    ensures r.Some? ==> exists key :: line == key + "=" + r.value.1 && '=' !in key && FieldFor(key) == Some(r.value.0)
  {
    match SplitOnce(line, '=')
    case None => None
    case Some((key, value)) =>
      assert line == key + "=" + value;
      if FieldFor(key).Some? then Some((FieldFor(key).value, value))
      else
        assert forall k, v :: line == k + "=" + v && '=' !in k ==> k == key by {
          forall k, v | line == k + "=" + v && '=' !in k
            ensures k == key
          {
            SplitAtFirst(line, k, v, key, value);
          }
        }
        None
  }

  /** Of two ways to split a line at an `=`, the one with the longer key has an `=` in its key. */
  lemma EqualsInLongerKey(line: string, k1: string, v1: string, k2: string, v2: string)
    requires line == k1 + "=" + v1 && line == k2 + "=" + v2 && |k1| < |k2|
    ensures '=' in k2
  {
    assert line[|k1|] == '=' && k2[|k1|] == line[|k1|];
  }

  /** A string splits at its first `=` in only one way. */
  lemma SplitAtFirst(line: string, k1: string, v1: string, k2: string, v2: string)
    requires line == k1 + "=" + v1 && '=' !in k1
    requires line == k2 + "=" + v2 && '=' !in k2
    ensures k1 == k2 && v1 == v2
  {
    if |k1| < |k2| {
      EqualsInLongerKey(line, k1, v1, k2, v2);
      assert false;
    } else if |k2| < |k1| {
      EqualsInLongerKey(line, k2, v2, k1, v1);
      assert false;
    } else {
      assert k1 == line[..|k1|] && k2 == line[..|k2|];
      assert v1 == line[|k1| + 1..] && v2 == line[|k2| + 1..];
    }
  }

  /** Reading back a rendered `KEY=VALUE` line gives the key's field and the value, whatever the value holds. */
  lemma LineSettingOf(key: string, value: string)
    requires '=' !in key
    ensures LineSetting(key + "=" + value) == if FieldFor(key).Some? then Some((FieldFor(key).value, value)) else None
  {
    var line := key + "=" + value;
    assert line[|key|] == '=';
    var (k, v) := SplitOnce(line, '=').value;
    SplitAtFirst(line, k, v, key, value);
  }

  /** The details map after the environment lines, taken in order. */
  function EnvDetails(lines: seq<string>): Details
    decreases |lines|
  {
    if lines == [] then map[]
    else
      var d := EnvDetails(lines[..|lines| - 1]);
      match LineSetting(lines[|lines| - 1])
      case None => d
      case Some((field, value)) => d[field := value]
  }

  /** Only Password, User and Database are ever filled. */
  lemma {:induction false} EnvDetailsFields(lines: seq<string>)
    ensures EnvDetails(lines).Keys <= {"Password", "User", "Database"}
    decreases |lines|
  {
    if lines != [] {
      EnvDetailsFields(lines[..|lines| - 1]);
    }
  }

  /** A field is set by the last line that sets it; its value is that line's text after the first `=`. */
  lemma {:induction false} EnvDetailsLastWins(lines: seq<string>, i: nat, field: string)
    requires i < |lines| && LineSetting(lines[i]).Some? && LineSetting(lines[i]).value.0 == field
    requires forall j :: i < j < |lines| ==> LineSetting(lines[j]).None? || LineSetting(lines[j]).value.0 != field
    ensures field in EnvDetails(lines) && EnvDetails(lines)[field] == LineSetting(lines[i]).value.1
    decreases |lines|
  {
    var init := lines[..|lines| - 1];
    if i < |lines| - 1 {
      assert forall j :: i < j < |init| ==> init[j] == lines[j];
      EnvDetailsLastWins(init, i, field);
    }
  }

  /** A field no line sets stays out of the map. */
  lemma {:induction false} EnvDetailsUnset(lines: seq<string>, field: string)
    requires forall j :: 0 <= j < |lines| ==> LineSetting(lines[j]).None? || LineSetting(lines[j]).value.0 != field
    ensures field !in EnvDetails(lines)
    decreases |lines|
  {
    if lines != [] {
      var init := lines[..|lines| - 1];
      assert forall j :: 0 <= j < |init| ==> init[j] == lines[j];
      EnvDetailsUnset(init, field);
    }
  }

  /** One more line changes at most the field it sets. */
  lemma EnvDetailsSnoc(lines: seq<string>, line: string)
    ensures EnvDetails(lines + [line])
            == match LineSetting(line) case None => EnvDetails(lines) case Some((f, v)) => EnvDetails(lines)[f := v]
  {
    assert (lines + [line])[..|lines|] == lines;
  }

  /** A line `KEY=value` for a known key sets the key's field to `value`, whatever came before. */
  lemma EnvDetailsSetsField(lines: seq<string>, key: string, value: string)
    requires '=' !in key && FieldFor(key).Some?
    ensures EnvDetails(lines + [key + "=" + value]) == EnvDetails(lines)[FieldFor(key).value := value]
  {
    LineSettingOf(key, value);
    EnvDetailsSnoc(lines, key + "=" + value);
  }

  /** The environment listing of services_test.go's helper (three keys, then the empty line after the last newline). */
  lemma EnvDetailsOfListing(password: string, user: string, database: string)
    ensures EnvDetails(["MYSQL_ROOT_PASSWORD" + "=" + password, "MYSQL_USER" + "=" + user, "MYSQL_DATABASE" + "=" + database, ""])
            == map["Password" := password, "User" := user, "Database" := database]
  {
    var l0, l1, l2 := "MYSQL_ROOT_PASSWORD" + "=" + password, "MYSQL_USER" + "=" + user, "MYSQL_DATABASE" + "=" + database;
    EnvDetailsOfKeys(password, user, database);
    EnvDetailsSnoc([l0, l1, l2], "");
    assert [l0, l1, l2] + [""] == [l0, l1, l2, ""];
  }

  lemma EnvDetailsOfKeys(password: string, user: string, database: string)
    ensures EnvDetails(["MYSQL_ROOT_PASSWORD" + "=" + password, "MYSQL_USER" + "=" + user, "MYSQL_DATABASE" + "=" + database])
            == map["Password" := password, "User" := user, "Database" := database]
  {
    var k0, k1, k2 := "MYSQL_ROOT_PASSWORD", "MYSQL_USER", "MYSQL_DATABASE";
    KnownKeys(k0, k1, k2);
    LineSettingOf(k0, password);
    LineSettingOf(k1, user);
    LineSettingOf(k2, database);
    EnvDetailsOfThree(k0 + "=" + password, k1 + "=" + user, k2 + "=" + database, password, user, database);
  }

  /** The three keys getMySQLDetails knows, and the fields they set. */
  lemma KnownKeys(k0: string, k1: string, k2: string)
    requires k0 == "MYSQL_ROOT_PASSWORD" && k1 == "MYSQL_USER" && k2 == "MYSQL_DATABASE"
    ensures '=' !in k0 && '=' !in k1 && '=' !in k2
    ensures FieldFor(k0) == Some("Password") && FieldFor(k1) == Some("User") && FieldFor(k2) == Some("Database")
  {
  }

  lemma EnvDetailsOfThree(a: string, b: string, c: string, password: string, user: string, database: string)
    requires LineSetting(a) == Some(("Password", password))
    requires LineSetting(b) == Some(("User", user))
    requires LineSetting(c) == Some(("Database", database))
    ensures EnvDetails([a, b, c]) == map["Password" := password, "User" := user, "Database" := database]
  {
    EnvDetailsSnoc([], a);
    assert [] + [a] == [a];
    EnvDetailsSnoc([a], b);
    assert [a] + [b] == [a, b];
    EnvDetailsSnoc([a, b], c);
    assert [a, b] + [c] == [a, b, c];
  }

  /**
   * The loop of getMySQLDetails over the lines of the environment listing, filling
   * the map in place.
   */
  method ParseEnv(lines: seq<string>) returns (details: Details)
    ensures details == EnvDetails(lines)
  {
    details := map[];
    var i := 0;
    while i < |lines|
      invariant 0 <= i <= |lines|
      invariant details == EnvDetails(lines[..i])
    {
      var env := lines[i];
      var parts := SplitOnce(env, '=');
      if parts.Some? {
        var (key, value) := parts.value;
        if key == "MYSQL_ROOT_PASSWORD" {
          details := details["Password" := value];
        } else if key == "MYSQL_USER" {
          details := details["User" := value];
        } else if key == "MYSQL_DATABASE" {
          details := details["Database" := value];
        }
      }
      assert lines[..i + 1][..i] == lines[..i];
      i := i + 1;
    }
    assert lines[..i] == lines;
  }

  const PsArgv := ["docker", "ps", "--filter", "name=mysql", "--format", "{{.Names}}"]
  const EnvFormat := "{{range .Config.Env}}{{println .}}{{end}}"
  const IPFormat := "{{range .NetworkSettings.Networks}}{{.IPAddress}}{{end}}"
  const PortFormat := "{{range $p, $conf := .NetworkSettings.Ports}}{{if eq $p \"3306/tcp\"}}{{(index $conf 0).HostPort}}{{end}}{{end}}"

  function InspectArgv(format: string, container: string): seq<string> {
    ["docker", "inspect", "--format", format, container]
  }

  /** Go's map index: the value, or "" for a missing key. */
  function Lookup(d: Details, k: string): string {
    if k in d then d[k] else ""
  }

  /** getMySQLDetails, given the output of each `docker` call. */
  function MySQLDetails(run: seq<string> -> Result<string, string>): (r: Result<Details, string>)
    ensures (run(PsArgv).Err? || run(PsArgv).value == "") <==> r == Err("MySQL container is not running")
    ensures r.Ok? ==>
              var name := TrimSpace(run(PsArgv).value);
              run(InspectArgv(EnvFormat, name)).Ok?
              && run(InspectArgv(IPFormat, name)).Ok? && run(InspectArgv(PortFormat, name)).Ok?
              && r.value.Keys <= {"Password", "User", "Database", "Host", "Port"}
              && "Host" in r.value && "Port" in r.value
              && r.value["Host"] == TrimSpace(run(InspectArgv(IPFormat, name)).value)
              && r.value["Port"] == TrimSpace(run(InspectArgv(PortFormat, name)).value)
              && "Database" in r.value && r.value["Database"] != ""
  {
    var ps := run(PsArgv);
    if ps.Err? || ps.value == "" then Err("MySQL container is not running")
    else
      var name := TrimSpace(ps.value);
      match run(InspectArgv(EnvFormat, name))
      case Err(e) => Err("failed to inspect MySQL container: " + e)
      case Ok(env) =>
        var parsed := EnvDetails(Split(env, "\n"));
        EnvDetailsFields(Split(env, "\n"));
        match run(InspectArgv(IPFormat, name))
        case Err(e) => Err("failed to get MySQL container IP: " + e)
        case Ok(ip) =>
          match run(InspectArgv(PortFormat, name))
          case Err(e) => Err("failed to get MySQL container port: " + e)
          case Ok(port) =>
            var details := parsed["Host" := TrimSpace(ip)]["Port" := TrimSpace(port)];
            if Lookup(details, "Database") == "" then Ok(details["Database" := "wordpress"])
            else Ok(details)
  }

  /**
   * The `docker` commands getMySQLDetails runs, in order: `docker ps`, then the
   * environment, IP and port queries on the container it names, stopping after the
   * first that fails. Every command but the last succeeded, and the last one decides
   * the outcome.
   */
  function MySQLQueries(run: seq<string> -> Result<string, string>): (q: seq<seq<string>>)
    ensures 1 <= |q| <= 4 && q[0] == PsArgv
    ensures forall k :: 0 <= k < |q| ==> q[k] != [] && q[k][0] == "docker"
    ensures forall k :: 0 <= k < |q| - 1 ==> run(q[k]).Ok?
    ensures |q| > 1 ==>
              var name := TrimSpace(run(PsArgv).value);
              run(PsArgv).value != ""
              && q[1..] == [InspectArgv(EnvFormat, name), InspectArgv(IPFormat, name), InspectArgv(PortFormat, name)][..|q| - 1]
    ensures MySQLDetails(run).Ok? <==> |q| == 4 && run(q[3]).Ok?
    ensures MySQLDetails(run).Err? ==> run(q[|q| - 1]).Err? || (|q| == 1 && run(PsArgv).value == "")
  {
    var ps := run(PsArgv);
    if ps.Err? || ps.value == "" then [PsArgv]
    else
      var name := TrimSpace(ps.value);
      var inspects := [InspectArgv(EnvFormat, name), InspectArgv(IPFormat, name), InspectArgv(PortFormat, name)];
      [PsArgv] + (if run(inspects[0]).Err? then inspects[..1] else if run(inspects[1]).Err? then inspects[..2] else inspects)
  }

  /** The environment fields and the default applied after them. */
  lemma MySQLDetailsFields(run: seq<string> -> Result<string, string>)
    requires MySQLDetails(run).Ok?
    ensures var name := TrimSpace(run(PsArgv).value);
            var parsed := EnvDetails(Split(run(InspectArgv(EnvFormat, name)).value, "\n"));
            var d := MySQLDetails(run).value;
            (forall f :: f in {"Password", "User"} ==> (f in d <==> f in parsed) && (f in d ==> d[f] == parsed[f]))
            && d["Database"] == (if Lookup(parsed, "Database") == "" then "wordpress" else parsed["Database"])
  {
  }

  /** The error ladder: each failing call gives its own message, and later calls are not reached. */
  lemma MySQLDetailsErrors(run: seq<string> -> Result<string, string>)
    requires run(PsArgv).Ok? && run(PsArgv).value != ""
    ensures var name := TrimSpace(run(PsArgv).value);
            var r := MySQLDetails(run);
            (run(InspectArgv(EnvFormat, name)).Err? ==>
               r == Err("failed to inspect MySQL container: " + run(InspectArgv(EnvFormat, name)).error))
            && (run(InspectArgv(EnvFormat, name)).Ok? && run(InspectArgv(IPFormat, name)).Err? ==>
               r == Err("failed to get MySQL container IP: " + run(InspectArgv(IPFormat, name)).error))
            && (run(InspectArgv(EnvFormat, name)).Ok? && run(InspectArgv(IPFormat, name)).Ok?
                && run(InspectArgv(PortFormat, name)).Err? ==>
               r == Err("failed to get MySQL container port: " + run(InspectArgv(PortFormat, name)).error))
  {
  }

  /**
   * getServiceDetails: "mysql" never fails (a failure of getMySQLDetails becomes no
   * details, after an informational message); any other name is unsupported.
   */
  function ServiceDetails(service: string, run: seq<string> -> Result<string, string>)
    : (r: Result<Option<Details>, string>)
    ensures service == "mysql" ==> r.Ok? && (r.value.None? <==> MySQLDetails(run).Err?)
    ensures service == "mysql" && r.value.Some? ==> r.value.value == MySQLDetails(run).value
    ensures service != "mysql" ==> r == Err("unsupported service: " + service)
  {
    if service == "mysql" then
      match MySQLDetails(run)
      case Err(_) => Ok(None)
      case Ok(d) => Ok(Some(d))
    else Err("unsupported service: " + service)
  }

  /** The placeholders of the MySQL compose file, each with its flag value. */
  function Replacements(user: string, password: string, port: string): map<string, string> {
    map["${MYSQL_USER}" := user, "${MYSQL_PASSWORD}" := password, "${MYSQL_PORT}" := port]
  }

  /** An order in which Go's map iteration may visit the three placeholders: each exactly once. */
  predicate IsVisitOrder(order: seq<string>) {
    |order| == 3 && (forall k :: 0 <= k < 3 ==> order[k] in Replacements("", "", ""))
    && order[0] != order[1] && order[0] != order[2] && order[1] != order[2]
  }

  /** The (placeholder, value) pairs in visiting order. */
  function Pairs(order: seq<string>, values: map<string, string>): (ps: seq<(string, string)>)
    requires forall k :: 0 <= k < |order| ==> order[k] in values
    ensures |ps| == |order| && forall k :: 0 <= k < |order| ==> ps[k] == (order[k], values[order[k]])
  {
    if order == [] then [] else [(order[0], values[order[0]])] + Pairs(order[1..], values)
  }

  /**
   * installMySQL. `read` is the content of docker/databases/mysql-compose.yml (or the
   * read error), `tmpDir` is os.TempDir(), `writeError` and `upError` the outcomes of
   * writing the temporary file and of `docker-compose up`. The placeholders are
   * replaced in the map's visiting order `order`; the temporary file is removed
   * whether or not `docker-compose` succeeds, and its error is returned as it is.
   */
  method InstallMySQL(user: string, password: string, port: string, order: seq<string>,
                      read: Result<string, string>, tmpDir: string,
                      writeError: Option<string>, upError: Option<string>)
    returns (effects: seq<Effect>, err: Option<string>)
    requires IsVisitOrder(order)
    ensures read.Err? ==>
              effects == [ReadFile("docker/databases/mysql-compose.yml")]
              && err == Some("failed to read MySQL compose file: " + read.error)
    ensures read.Ok? ==>
              var temp := GoPaths.PathJoin([tmpDir, "temp-mysql-compose.yml"]);
              var content := ReplaceEach(read.value, Pairs(order, Replacements(user, password, port)));
              var written := [ReadFile("docker/databases/mysql-compose.yml"), WriteFile(temp, content)];
              if writeError.Some? then
                effects == written && err == Some("failed to write temporary MySQL compose file: " + writeError.value)
              else
                effects == written + [Command(["docker-compose", "-f", temp, "up", "-d"]), RemoveFile(temp)]
                && err == upError
  {
    var composePath := "docker/databases/mysql-compose.yml";
    effects := [ReadFile(composePath)];
    if read.Err? {
      return effects, Some("failed to read MySQL compose file: " + read.error);
    }
    var content := read.value;
    var replacements := Replacements(user, password, port);
    ghost var pairs := Pairs(order, replacements);
    for i := 0 to 3
      invariant NonEmptyPatterns(pairs[..i])
      invariant content == ReplaceEach(read.value, pairs[..i])
    {
      var placeholder := order[i];
      ReplaceEachSnoc(read.value, pairs[..i], pairs[i]);
      assert pairs[..i + 1] == pairs[..i] + [pairs[i]];
      content := ReplaceAll(content, placeholder, replacements[placeholder]);
    }
    assert pairs[..3] == pairs;
    var temp := GoPaths.PathJoin([tmpDir, "temp-mysql-compose.yml"]);
    effects := effects + [WriteFile(temp, content)];
    if writeError.Some? {
      return effects, Some("failed to write temporary MySQL compose file: " + writeError.value);
    }
    effects := effects + [Command(["docker-compose", "-f", temp, "up", "-d"])];
    effects := effects + [RemoveFile(temp)];
    err := upError;
  }

  /** A compose file without any of the three placeholders is written as read, in every visiting order. */
  lemma InstallWithoutPlaceholders(content: string, user: string, password: string, port: string, order: seq<string>)
    requires IsVisitOrder(order)
    requires !Contains(content, "${MYSQL_USER}") && !Contains(content, "${MYSQL_PASSWORD}")
             && !Contains(content, "${MYSQL_PORT}")
    ensures ReplaceEach(content, Pairs(order, Replacements(user, password, port))) == content
  {
    ReplaceEachAbsent(content, Pairs(order, Replacements(user, password, port)));
  }

  /**
   * The result depends on the visiting order. When the user value is itself the port
   * placeholder, a file holding the user placeholder ends up as the port number if
   * the user placeholder is visited first, but keeps the port placeholder if the port
   * placeholder is visited first. This holds for any
   * three placeholders none of which occurs in another (PlaceholdersApart shows the
   * real ones are such), with the values map written out (ReplacementsOf).
   * The instance meant is installMySQL's own: u, pw, pt the literals "${MYSQL_USER}",
   * "${MYSQL_PASSWORD}", "${MYSQL_PORT}", the user flag "${MYSQL_PORT}" and a file
   * holding "${MYSQL_USER}". PlaceholdersApart discharges the first two requires,
   * ReplacementsOf shows that Replacements("${MYSQL_PORT}", "default_password", "3306")
   * is the map of the third, and VisitOrders shows both orders are IsVisitOrder.
   */
  lemma InstallOrderMatters(u: string, pw: string, pt: string, values: map<string, string>)
    requires u != "" && pw != "" && pt != ""
    requires u != pw && u != pt && pw != pt && !Contains(u, pt) && !Contains(pt, pw)
    requires values == map[u := pt, pw := "default_password", pt := "3306"]
    ensures NonEmptyPatterns(Pairs([u, pw, pt], values)) && NonEmptyPatterns(Pairs([pt, u, pw], values))
    ensures ReplaceEach(u, Pairs([u, pw, pt], values)) == "3306"
    ensures ReplaceEach(u, Pairs([pt, u, pw], values)) == pt
  {
    assert Pairs([u, pw, pt], values) == [(u, pt), (pw, "default_password"), (pt, "3306")];
    assert Pairs([pt, u, pw], values) == [(pt, "3306"), (u, pt), (pw, "default_password")];
    UserFirst(u, pw, pt, Pairs([u, pw, pt], values));
    PortFirst(u, pw, pt, Pairs([pt, u, pw], values));
  }

  /** The replacements of installMySQL when the user name is the port placeholder. */
  lemma ReplacementsOf(u: string, pw: string, pt: string)
    requires u == "${MYSQL_USER}" && pw == "${MYSQL_PASSWORD}" && pt == "${MYSQL_PORT}"
    ensures Replacements(pt, "default_password", "3306") == map[u := pt, pw := "default_password", pt := "3306"]
  {
  }

  /** Both orders used in InstallOrderMatters are orders in which Go may visit the map. */
  lemma VisitOrders(u: string, pw: string, pt: string)
    requires u == "${MYSQL_USER}" && pw == "${MYSQL_PASSWORD}" && pt == "${MYSQL_PORT}"
    ensures IsVisitOrder([u, pw, pt]) && IsVisitOrder([pt, u, pw])
  {
    assert u[8] != pt[8];
    assert |u| != |pw| && |pt| != |pw|;
  }

  /** No one of the three placeholders occurs in another. */
  lemma PlaceholdersApart(u: string, pw: string, pt: string)
    requires u == "${MYSQL_USER}" && pw == "${MYSQL_PASSWORD}" && pt == "${MYSQL_PORT}"
    ensures u != "" && pw != "" && pt != ""
    ensures u != pw && u != pt && pw != pt && !Contains(u, pt) && !Contains(pt, pw)
  {
    ContainsLength(u, pt);
    assert u[8] != pt[8];
    assert |u| != |pw| && |pt| != |pw|;
    ContainsLength(pt, pw);
  }

  lemma UserFirst(u: string, pw: string, pt: string, ps: seq<(string, string)>)
    requires u != "" && pw != "" && pt != "" && !Contains(pt, pw)
    requires ps == [(u, pt), (pw, "default_password"), (pt, "3306")]
    ensures NonEmptyPatterns(ps) && ReplaceEach(u, ps) == "3306"
  {
    ReplaceEachCons(u, (u, pt), [(pw, "default_password"), (pt, "3306")]);
    ReplaceEachCons(pt, (pw, "default_password"), [(pt, "3306")]);
    ReplaceEachCons(pt, (pt, "3306"), []);
    ReplaceAllWhole(u, pt);
    ReplaceAllAbsent(pt, pw, "default_password");
    ReplaceAllWhole(pt, "3306");
  }

  lemma PortFirst(u: string, pw: string, pt: string, ps: seq<(string, string)>)
    requires u != "" && pw != "" && pt != "" && !Contains(u, pt) && !Contains(pt, pw)
    requires ps == [(pt, "3306"), (u, pt), (pw, "default_password")]
    ensures NonEmptyPatterns(ps) && ReplaceEach(u, ps) == pt
  {
    ReplaceEachCons(u, (pt, "3306"), [(u, pt), (pw, "default_password")]);
    ReplaceEachCons(u, (u, pt), [(pw, "default_password")]);
    ReplaceEachCons(pt, (pw, "default_password"), []);
    ReplaceAllAbsent(u, pt, "3306");
    ReplaceAllWhole(u, pt);
    ReplaceAllAbsent(pt, pw, "default_password");
  }
}
