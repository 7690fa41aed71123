/**
 * src/commands/sites.go: `sites new` (prompting for missing flags, validation, the
 * internal MySQL check, writing and starting the site's compose file) and
 * `sites start` / `sites stop` over the sites in the home directory.
 *
 * Standard input is the sequence of lines still unread. Commands are looked up in
 * `run` (argument list, program name first, to output or error text), files in
 * `read`; the outcomes of creating directories and writing files are parameters.
 */
module Sites {
  import opened Wrappers
  import opened GoStrings
  import opened GoPaths
  import GoFmt
  import Files
  import Services
  import Compose
  import opened Effects

  // ---------------------------------------------------------------------------
  // validateInputs

  /** The checks of validateInputs, each named by the error it reports. */
  datatype ValidationError =
    | InvalidSiteType
    | DomainRequired
    | InvalidDatabaseSource
    | InvalidScalingType
    | TooFewReplicas
    | MaxReplicasBelowReplicas

  function Message(e: ValidationError): string {
    match e
    case InvalidSiteType => "invalid site type"
    case DomainRequired => "domain is required"
    case InvalidDatabaseSource => "invalid database source"
    case InvalidScalingType => "invalid scaling type"
    case TooFewReplicas => "replicas must be at least 1"
    case MaxReplicasBelowReplicas => "max_replicas must be greater than or equal to replicas"
  }

  /** The position of a check in validateInputs. */
  function Rank(e: ValidationError): nat {
    match e
    case InvalidSiteType => 0
    case DomainRequired => 1
    case InvalidDatabaseSource => 2
    case InvalidScalingType => 3
    case TooFewReplicas => 4
    case MaxReplicasBelowReplicas => 5
  }

  /** Whether the inputs pass one check, stated on its own. */
  predicate Passes(e: ValidationError, siteType: string, domain: string, dbSource: string, scalingType: string,
                   replicas: int, maxReplicas: int)
  {
    match e
    case InvalidSiteType => siteType == "wp"
    case DomainRequired => domain != ""
    case InvalidDatabaseSource => dbSource == "internal" || dbSource == "external"
    case InvalidScalingType => scalingType == "dynamic" || scalingType == "static"
    case TooFewReplicas => replicas >= 1
    case MaxReplicasBelowReplicas => scalingType != "dynamic" || maxReplicas >= replicas
  }

  /**
   * validateInputs: no error exactly when every check passes; otherwise the error of
   * a failing check all of whose predecessors pass, that is, the first failing one.
   */
  function ValidateInputs(siteType: string, domain: string, dbSource: string, scalingType: string,
                          replicas: int, maxReplicas: int): (r: Option<ValidationError>)
    ensures r.None? <==> forall e :: Passes(e, siteType, domain, dbSource, scalingType, replicas, maxReplicas)
    ensures r.Some? ==>
              !Passes(r.value, siteType, domain, dbSource, scalingType, replicas, maxReplicas)
              && forall e :: Rank(e) < Rank(r.value) ==> Passes(e, siteType, domain, dbSource, scalingType, replicas, maxReplicas)
  {
    var passes := e => Passes(e, siteType, domain, dbSource, scalingType, replicas, maxReplicas);
    if !passes(InvalidSiteType) then Some(InvalidSiteType)
    else if !passes(DomainRequired) then Some(DomainRequired)
    else if !passes(InvalidDatabaseSource) then Some(InvalidDatabaseSource)
    else if !passes(InvalidScalingType) then Some(InvalidScalingType)
    else if !passes(TooFewReplicas) then Some(TooFewReplicas)
    else if !passes(MaxReplicasBelowReplicas) then Some(MaxReplicasBelowReplicas)
    else None
  }

  /** The accepted inputs, spelled out. */
  lemma ValidateInputsAccepts(siteType: string, domain: string, dbSource: string, scalingType: string,
                              replicas: int, maxReplicas: int)
    ensures ValidateInputs(siteType, domain, dbSource, scalingType, replicas, maxReplicas).None?
            <==> siteType == "wp" && domain != ""
                 && (dbSource == "internal" || dbSource == "external")
                 && (scalingType == "dynamic" || scalingType == "static")
                 && replicas >= 1
                 && (scalingType == "dynamic" ==> maxReplicas >= replicas)
  {
    var ok := ValidateInputs(siteType, domain, dbSource, scalingType, replicas, maxReplicas).None?;
    if !ok {
      var e := ValidateInputs(siteType, domain, dbSource, scalingType, replicas, maxReplicas).value;
      assert !Passes(e, siteType, domain, dbSource, scalingType, replicas, maxReplicas);
    } else {
      assert Passes(InvalidSiteType, siteType, domain, dbSource, scalingType, replicas, maxReplicas);
      assert Passes(DomainRequired, siteType, domain, dbSource, scalingType, replicas, maxReplicas);
      assert Passes(InvalidDatabaseSource, siteType, domain, dbSource, scalingType, replicas, maxReplicas);
      assert Passes(InvalidScalingType, siteType, domain, dbSource, scalingType, replicas, maxReplicas);
      assert Passes(TooFewReplicas, siteType, domain, dbSource, scalingType, replicas, maxReplicas);
      assert Passes(MaxReplicasBelowReplicas, siteType, domain, dbSource, scalingType, replicas, maxReplicas);
    }
  }

  /** The table of TestValidateInputs, with the error each failing row gets. */
  lemma ValidateInputsTable()
    ensures ValidateInputs("wp", "example.com", "internal", "static", 1, 0) == None
    ensures ValidateInputs("invalid", "example.com", "internal", "static", 1, 0) == Some(InvalidSiteType)
    ensures ValidateInputs("wp", "", "internal", "static", 1, 0) == Some(DomainRequired)
    ensures ValidateInputs("wp", "example.com", "invalid", "static", 1, 0) == Some(InvalidDatabaseSource)
    ensures ValidateInputs("wp", "example.com", "internal", "invalid", 1, 0) == Some(InvalidScalingType)
    ensures ValidateInputs("wp", "example.com", "internal", "static", 0, 0) == Some(TooFewReplicas)
    ensures ValidateInputs("wp", "example.com", "internal", "dynamic", 2, 1) == Some(MaxReplicasBelowReplicas)
    ensures ValidateInputs("invalid", "", "internal", "static", 1, 0) == Some(InvalidSiteType)
  {
  }

  /** `max_replicas` matters only for dynamic scaling. */
  lemma StaticIgnoresMaxReplicas(domain: string, dbSource: string, replicas: int, maxReplicas: int, other: int)
    ensures ValidateInputs("wp", domain, dbSource, "static", replicas, maxReplicas)
            == ValidateInputs("wp", domain, dbSource, "static", replicas, other)
  {
  }

  // ---------------------------------------------------------------------------
  // promptIfEmpty and promptInt

  /**
   * promptIfEmpty over the unread input lines: a non-empty value is kept and nothing
   * is read; otherwise one line is read (none at end of input) and its first field
   * is taken, or `defaultValue` when the line is blank or input has ended.
   */
  function PromptIfEmpty(value: string, defaultValue: string, input: seq<string>): (r: (string, seq<string>))
    ensures value != "" ==> r == (value, input)
    ensures value == "" ==> r.1 == (if input == [] then [] else input[1..])
    ensures value == "" ==> r.0 == defaultValue || (input != [] && GoFmt.ScanToken(input[0]) == Some(r.0))
    ensures value == "" && input != [] && GoFmt.ScanToken(input[0]).Some? ==> r.0 == GoFmt.ScanToken(input[0]).value
  {
    if value != "" then (value, input)
    else if input == [] then (defaultValue, [])
    else
      match GoFmt.ScanToken(input[0])
      case None => (defaultValue, input[1..])
      case Some(token) => (token, input[1..])
  }

  /** Typing a word at the prompt gives that word, and a blank line gives the default. */
  lemma PromptIfEmptyReadsWord(word: string, defaultValue: string, rest: seq<string>)
    requires word != [] && forall k :: 0 <= k < |word| ==> !IsSpace(word[k])
    ensures PromptIfEmpty("", defaultValue, [word] + rest) == (word, rest)
    ensures PromptIfEmpty("", defaultValue, [""] + rest) == (defaultValue, rest)
  {
    GoFmt.ScanTokenOfToken(word);
    assert ([word] + rest)[1..] == rest && ([""] + rest)[1..] == rest;
  }

  /**
   * The run of promptInt's loop from the unread input with `value` holding what was
   * last scanned: each line read either sets `value` or leaves it; the loop stops as
   * soon as `value >= minValue`. At the end of input every further Scanln fails and
   * leaves `value` alone, so the loop returns it if it is large enough and otherwise
   * never returns (`None`).
   */
  function PromptIntFrom(minValue: int, input: seq<string>, value: int): (r: Option<(int, seq<string>)>)
    ensures r.Some? ==> r.value.0 >= minValue && |r.value.1| <= |input| && r.value.1 == input[|input| - |r.value.1|..]
    decreases |input|
  {
    if input == [] then
      if value >= minValue then Some((value, [])) else None
    else
      var v := match GoFmt.ScanInt(input[0]) case Some(n) => n case None => value;
      if v >= minValue then Some((v, input[1..])) else PromptIntFrom(minValue, input[1..], v)
  }

  /** The value promptInt returns is the one it already held or the number scanned from one of the lines read. */
  lemma {:induction false} PromptIntFromValue(minValue: int, input: seq<string>, value: int)
    requires PromptIntFrom(minValue, input, value).Some?
    ensures var n := PromptIntFrom(minValue, input, value).value.0;
            n == value || exists i :: 0 <= i < |input| && GoFmt.ScanInt(input[i]) == Some(n)
    decreases |input|
  {
    if input != [] {
      var v := match GoFmt.ScanInt(input[0]) case Some(n) => n case None => value;
      if v < minValue {
        PromptIntFromValue(minValue, input[1..], v);
        var n := PromptIntFrom(minValue, input, value).value.0;
        if n != v {
          var i :| 0 <= i < |input[1..]| && GoFmt.ScanInt(input[1..][i]) == Some(n);
          assert input[1..][i] == input[i + 1];
        }
      }
    }
  }

  /** promptInt: Go's `var value int` starts at 0, and the loop runs until the value is large enough. */
  method PromptInt(minValue: int, input: seq<string>) returns (r: Option<(int, seq<string>)>)
    ensures r == PromptIntFrom(minValue, input, 0)
  {
    var value := 0;
    var rest := input;
    while true
      invariant PromptIntFrom(minValue, rest, value) == PromptIntFrom(minValue, input, 0)
      decreases |rest|
    {
      if rest == [] {
        if value >= minValue {
          return Some((value, []));
        }
        return None;
      }
      var scanned := GoFmt.ScanInt(rest[0]);
      rest := rest[1..];
      if scanned.Some? {
        value := scanned.value;
      }
      if value >= minValue {
        return Some((value, rest));
      }
    }
  }

  /** Once a line holds a large enough number, promptInt returns, at that line or earlier. */
  lemma {:induction false} PromptIntReturns(minValue: int, input: seq<string>, value: int, i: nat)
    requires i < |input| && GoFmt.ScanInt(input[i]).Some? && GoFmt.ScanInt(input[i]).value >= minValue
    ensures PromptIntFrom(minValue, input, value).Some?
    ensures |PromptIntFrom(minValue, input, value).value.1| >= |input| - i - 1
    decreases |input|
  {
    if i > 0 {
      var v := match GoFmt.ScanInt(input[0]) case Some(n) => n case None => value;
      if v < minValue {
        assert input[1..][i - 1] == input[i];
        PromptIntReturns(minValue, input[1..], v, i - 1);
      }
    }
  }

  /** A value typed as `%d` prints it is read back and accepted when large enough. */
  lemma PromptIntReadsNumber(minValue: int, n: int, rest: seq<string>, value: int)
    requires GoFmt.MinInt64 <= n <= GoFmt.MaxInt64 && n >= minValue
    ensures PromptIntFrom(minValue, [GoFmt.FormatInt(n)] + rest, value) == Some((n, rest))
  {
    GoFmt.ScanFormatRoundTrip(n);
    assert ([GoFmt.FormatInt(n)] + rest)[1..] == rest;
  }

  /** A line whose number is below the minimum is read and stored, and the prompt repeats. */
  lemma PromptIntTooSmall(minValue: int, line: string, rest: seq<string>, value: int)
    requires GoFmt.ScanInt(line).Some? && GoFmt.ScanInt(line).value < minValue
    ensures PromptIntFrom(minValue, [line] + rest, value) == PromptIntFrom(minValue, rest, GoFmt.ScanInt(line).value)
  {
    assert ([line] + rest)[0] == line && ([line] + rest)[1..] == rest;
  }

  /**
   * Go's scan reads "010" as octal 8: with a minimum of 9 that is too small, so the
   * prompt asks again and, at the end of input, never returns.
   */
  lemma PromptIntOctalTooSmall()
    ensures PromptIntFrom(9, ["010"], 0) == None
  {
    GoFmt.ScanIntOctal();
    PromptIntTooSmall(9, "010", [], 0);
    assert ["010"] + [] == ["010"];
  }

  // ---------------------------------------------------------------------------
  // runNewSite: flags and prompts

  /** The flags of `sites new`. */
  datatype SiteFlags = SiteFlags(
    siteType: string, domain: string, dbSource: string,
    dbHost: string, dbPort: string, dbName: string, dbUser: string, dbPassword: string,
    scalingType: string, replicas: int, maxReplicas: int, webhook: string)

  /** The flag defaults declared in init: every string empty, one replica, no maximum. */
  const DefaultFlags := SiteFlags("", "", "", "", "", "", "", "", "", 1, 0, "")

  /** The five prompts for an external database, in order, each with "" as its default. */
  function PromptExternal(f: SiteFlags, input: seq<string>): (r: (SiteFlags, seq<string>))
    ensures |r.1| <= |input|
    ensures r.0 == f.(dbHost := r.0.dbHost, dbPort := r.0.dbPort, dbName := r.0.dbName,
                      dbUser := r.0.dbUser, dbPassword := r.0.dbPassword)
    ensures f.dbHost != "" ==> r.0.dbHost == f.dbHost
    ensures f.dbPort != "" ==> r.0.dbPort == f.dbPort
    ensures f.dbName != "" ==> r.0.dbName == f.dbName
    ensures f.dbUser != "" ==> r.0.dbUser == f.dbUser
    ensures f.dbPassword != "" ==> r.0.dbPassword == f.dbPassword
  {
    var (host, in1) := PromptIfEmpty(f.dbHost, "", input);
    var (port, in2) := PromptIfEmpty(f.dbPort, "", in1);
    var (name, in3) := PromptIfEmpty(f.dbName, "", in2);
    var (user, in4) := PromptIfEmpty(f.dbUser, "", in3);
    var (password, in5) := PromptIfEmpty(f.dbPassword, "", in4);
    (f.(dbHost := host, dbPort := port, dbName := name, dbUser := user, dbPassword := password), in5)
  }

  /**
   * The string prompts of runNewSite, in order: site type (default "wp"), domain
   * (default ""), database source (default "internal"), the five database fields
   * only for an external source, and scaling type (default "static").
   */
  function PromptFields(f: SiteFlags, input: seq<string>): (r: (SiteFlags, seq<string>))
    ensures |r.1| <= |input|
    ensures f.siteType == "" ==> r.0.siteType == PromptIfEmpty("", "wp", input).0
    ensures var g := r.0;
            (f.siteType != "" ==> g.siteType == f.siteType)
            && (f.domain != "" ==> g.domain == f.domain)
            && (f.dbSource != "" ==> g.dbSource == f.dbSource)
            && (f.scalingType != "" ==> g.scalingType == f.scalingType)
            && (g.dbSource != "external" ==>
                  g.dbHost == f.dbHost && g.dbPort == f.dbPort && g.dbName == f.dbName
                  && g.dbUser == f.dbUser && g.dbPassword == f.dbPassword)
            && g.replicas == f.replicas && g.maxReplicas == f.maxReplicas && g.webhook == f.webhook
  {
    var (siteType, in1) := PromptIfEmpty(f.siteType, "wp", input);
    var (domain, in2) := PromptIfEmpty(f.domain, "", in1);
    var (dbSource, in3) := PromptIfEmpty(f.dbSource, "internal", in2);
    var g0 := f.(siteType := siteType, domain := domain, dbSource := dbSource);
    var (g1, in4) := if dbSource == "external" then PromptExternal(g0, in3) else (g0, in3);
    var (scalingType, in5) := PromptIfEmpty(f.scalingType, "static", in4);
    (g1.(scalingType := scalingType), in5)
  }

  /**
   * The prompting part of runNewSite: the string prompts, then the maximum number of
   * replicas, at least `replicas`, only for dynamic scaling without a maximum flag.
   * `None` is the run stuck in promptInt at the end of input.
   */
  function Gather(f: SiteFlags, input: seq<string>): (r: Option<(SiteFlags, seq<string>)>)
    ensures r.None? ==> f.maxReplicas == 0
    ensures r.Some? ==> |r.value.1| <= |input|
    ensures r.Some? && f.siteType == "" ==> r.value.0.siteType == PromptIfEmpty("", "wp", input).0
    ensures r.Some? ==>
              var g := r.value.0;
              (f.siteType != "" ==> g.siteType == f.siteType)
              && (f.domain != "" ==> g.domain == f.domain)
              && (f.dbSource != "" ==> g.dbSource == f.dbSource)
              && (f.scalingType != "" ==> g.scalingType == f.scalingType)
              && (g.dbSource != "external" ==>
                    g.dbHost == f.dbHost && g.dbPort == f.dbPort && g.dbName == f.dbName
                    && g.dbUser == f.dbUser && g.dbPassword == f.dbPassword)
              && g.replicas == f.replicas && g.webhook == f.webhook
              && (g.scalingType == "dynamic" && f.maxReplicas == 0 ==> g.maxReplicas >= g.replicas)
              && (g.scalingType != "dynamic" || f.maxReplicas != 0 ==> g.maxReplicas == f.maxReplicas)
    ensures r.Some? && !(r.value.0.scalingType == "dynamic" && f.maxReplicas == 0) ==> r.value == PromptFields(f, input)
  {
    var (g, rest) := PromptFields(f, input);
    if g.scalingType == "dynamic" && f.maxReplicas == 0 then
      match PromptIntFrom(f.replicas, rest, 0)
      case None => None
      case Some((m, rest')) => Some((g.(maxReplicas := m), rest'))
    else Some((g, rest))
  }

  /** What a prompt leaves in a field when no input is left: the value if set, else the default. */
  function OrDefault(value: string, defaultValue: string): (r: string)
    ensures r == value || (value == "" && r == defaultValue)
  {
    if value == "" then defaultValue else value
  }

  /**
   * With no input left every prompt takes its default (with "" as the default of the
   * domain and of the database fields); prompting for the maximum then returns only
   * if `replicas` is at most Go's zero value.
   */
  lemma GatherNoInput(f: SiteFlags)
    ensures var g := f.(siteType := OrDefault(f.siteType, "wp"), dbSource := OrDefault(f.dbSource, "internal"),
                        scalingType := OrDefault(f.scalingType, "static"));
            Gather(f, []) == (if g.scalingType == "dynamic" && f.maxReplicas == 0 && f.replicas > 0 then None
                              else Some((g, [])))
  {
    var g0 := f.(siteType := OrDefault(f.siteType, "wp"), dbSource := OrDefault(f.dbSource, "internal"));
    assert PromptExternal(g0, []) == (g0, []);
  }

  /** A line holding one word: what Scanln reads back whole. */
  predicate IsWord(w: string) {
    w != [] && forall k :: 0 <= k < |w| ==> !IsSpace(w[k])
  }

  /**
   * Answering the prompts of a site with an internal database and static scaling with
   * one word per line: the answers fill the empty fields in prompt order, and exactly
   * four lines are read.
   */
  lemma GatherReadsAnswers(f: SiteFlags, siteType: string, domain: string, dbSource: string, scalingType: string,
                           rest: seq<string>)
    requires f.siteType == "" && f.domain == "" && f.dbSource == "" && f.scalingType == ""
    requires IsWord(siteType) && IsWord(domain) && IsWord(dbSource) && IsWord(scalingType)
    requires dbSource != "external" && scalingType != "dynamic"
    ensures Gather(f, [siteType, domain, dbSource, scalingType] + rest)
            == Some((f.(siteType := siteType, domain := domain, dbSource := dbSource, scalingType := scalingType), rest))
  {
    var in3 := [scalingType] + rest;
    var in2 := [dbSource] + in3;
    var in1 := [domain] + in2;
    assert [siteType, domain, dbSource, scalingType] + rest == [siteType] + in1;
    PromptIfEmptyReadsWord(siteType, "wp", in1);
    PromptIfEmptyReadsWord(domain, "", in2);
    PromptIfEmptyReadsWord(dbSource, "internal", in3);
    PromptIfEmptyReadsWord(scalingType, "static", rest);
  }

  /**
   * The same for an external database: after the source, the host, port, name, user
   * and password are read from the next five lines, and the scaling type after them.
   */
  lemma GatherReadsExternalAnswers(f: SiteFlags, siteType: string, domain: string,
                                   host: string, port: string, name: string, user: string, password: string,
                                   scalingType: string, rest: seq<string>)
    requires f.siteType == "" && f.domain == "" && f.dbSource == "" && f.scalingType == ""
    requires f.dbHost == "" && f.dbPort == "" && f.dbName == "" && f.dbUser == "" && f.dbPassword == ""
    requires IsWord(siteType) && IsWord(domain) && IsWord(scalingType) && scalingType != "dynamic"
    requires IsWord(host) && IsWord(port) && IsWord(name) && IsWord(user) && IsWord(password)
    ensures Gather(f, [siteType, domain, "external", host, port, name, user, password, scalingType] + rest)
            == Some((f.(siteType := siteType, domain := domain, dbSource := "external",
                        dbHost := host, dbPort := port, dbName := name, dbUser := user, dbPassword := password,
                        scalingType := scalingType), rest))
  {
    PromptFieldsReadsExternal(f, siteType, domain, host, port, name, user, password, scalingType, rest);
  }

  lemma PromptFieldsReadsExternal(f: SiteFlags, siteType: string, domain: string,
                                  host: string, port: string, name: string, user: string, password: string,
                                  scalingType: string, rest: seq<string>)
    requires f.siteType == "" && f.domain == "" && f.dbSource == "" && f.scalingType == ""
    requires f.dbHost == "" && f.dbPort == "" && f.dbName == "" && f.dbUser == "" && f.dbPassword == ""
    requires IsWord(siteType) && IsWord(domain) && IsWord(scalingType)
    requires IsWord(host) && IsWord(port) && IsWord(name) && IsWord(user) && IsWord(password)
    ensures PromptFields(f, [siteType, domain, "external", host, port, name, user, password, scalingType] + rest)
            == (f.(siteType := siteType, domain := domain, dbSource := "external",
                   dbHost := host, dbPort := port, dbName := name, dbUser := user, dbPassword := password,
                   scalingType := scalingType), rest)
  {
    var in8 := [scalingType] + rest;
    var in3 := [host, port, name, user, password] + in8;
    var in1 := [domain, "external"] + in3;
    assert [siteType, domain, "external", host, port, name, user, password, scalingType] + rest == [siteType] + in1;
    ExternalSteps(f, siteType, domain, host, port, name, user, password, scalingType, rest);
    PromptFieldsOfSteps(f, [siteType] + in1, siteType, in1, domain, ["external"] + in3, "external", in3,
                        f.(siteType := siteType, domain := domain, dbSource := "external",
                           dbHost := host, dbPort := port, dbName := name, dbUser := user, dbPassword := password),
                        in8, scalingType, rest);
  }

  lemma ExternalSteps(f: SiteFlags, siteType: string, domain: string,
                      host: string, port: string, name: string, user: string, password: string,
                      scalingType: string, rest: seq<string>)
    requires f.siteType == "" && f.domain == "" && f.dbSource == "" && f.scalingType == ""
    requires f.dbHost == "" && f.dbPort == "" && f.dbName == "" && f.dbUser == "" && f.dbPassword == ""
    requires IsWord(siteType) && IsWord(domain) && IsWord(scalingType)
    requires IsWord(host) && IsWord(port) && IsWord(name) && IsWord(user) && IsWord(password)
    ensures var in8 := [scalingType] + rest;
            var in3 := [host, port, name, user, password] + in8;
            var in1 := [domain, "external"] + in3;
            var g0 := f.(siteType := siteType, domain := domain, dbSource := "external");
            && PromptIfEmpty(f.siteType, "wp", [siteType] + in1) == (siteType, in1)
            && PromptIfEmpty(f.domain, "", in1) == (domain, ["external"] + in3)
            && PromptIfEmpty(f.dbSource, "internal", ["external"] + in3) == ("external", in3)
            && PromptExternal(g0, in3)
               == (g0.(dbHost := host, dbPort := port, dbName := name, dbUser := user, dbPassword := password), in8)
            && PromptIfEmpty(f.scalingType, "static", in8) == (scalingType, rest)
  {
    var in8 := [scalingType] + rest;
    var in3 := [host, port, name, user, password] + in8;
    var in2 := ["external"] + in3;
    var in1 := [domain] + in2;
    assert [domain, "external"] + in3 == in1;
    ExternalAnswers(f.(siteType := siteType, domain := domain, dbSource := "external"), host, port, name, user, password, in8);
    PromptIfEmptyReadsWord(siteType, "wp", in1);
    PromptIfEmptyReadsWord(domain, "", in2);
    ReadsWordExternal(in3);
    PromptIfEmptyReadsWord(scalingType, "static", rest);
  }

  /** PromptFields from the outcome of each of its prompts. */
  lemma PromptFieldsOfSteps(f: SiteFlags, input: seq<string>, siteType: string, in1: seq<string>,
                            domain: string, in2: seq<string>, dbSource: string, in3: seq<string>,
                            g1: SiteFlags, in4: seq<string>, scalingType: string, in5: seq<string>)
    requires PromptIfEmpty(f.siteType, "wp", input) == (siteType, in1)
    requires PromptIfEmpty(f.domain, "", in1) == (domain, in2)
    requires PromptIfEmpty(f.dbSource, "internal", in2) == (dbSource, in3)
    requires var g0 := f.(siteType := siteType, domain := domain, dbSource := dbSource);
             (if dbSource == "external" then PromptExternal(g0, in3) else (g0, in3)) == (g1, in4)
    requires PromptIfEmpty(f.scalingType, "static", in4) == (scalingType, in5)
    ensures PromptFields(f, input) == (g1.(scalingType := scalingType), in5)
  {
  }

  lemma ReadsWordExternal(rest: seq<string>)
    ensures PromptIfEmpty("", "internal", ["external"] + rest) == ("external", rest)
  {
    assert IsWord("external");
    PromptIfEmptyReadsWord("external", "internal", rest);
  }

  lemma ExternalAnswers(g: SiteFlags, host: string, port: string, name: string, user: string, password: string,
                        rest: seq<string>)
    requires g.dbHost == "" && g.dbPort == "" && g.dbName == "" && g.dbUser == "" && g.dbPassword == ""
    requires IsWord(host) && IsWord(port) && IsWord(name) && IsWord(user) && IsWord(password)
    ensures PromptExternal(g, [host, port, name, user, password] + rest)
            == (g.(dbHost := host, dbPort := port, dbName := name, dbUser := user, dbPassword := password), rest)
  {
    var in4 := [password] + rest;
    var in3 := [user] + in4;
    var in2 := [name] + in3;
    var in1 := [port] + in2;
    assert [host, port, name, user, password] + rest == [host] + in1;
    PromptIfEmptyReadsWord(host, "", in1);
    PromptIfEmptyReadsWord(port, "", in2);
    PromptIfEmptyReadsWord(name, "", in3);
    PromptIfEmptyReadsWord(user, "", in4);
    PromptIfEmptyReadsWord(password, "", rest);
  }

  /**
   * Choosing dynamic scaling without a maximum flag: the line after the scaling type
   * is read as the maximum, and a number of at least `replicas` is taken as it is.
   */
  lemma GatherReadsMaximum(f: SiteFlags, siteType: string, domain: string, dbSource: string, m: int, rest: seq<string>)
    requires f.siteType == "" && f.domain == "" && f.dbSource == "" && f.scalingType == "" && f.maxReplicas == 0
    requires IsWord(siteType) && IsWord(domain) && IsWord(dbSource) && dbSource != "external"
    requires GoFmt.MinInt64 <= m <= GoFmt.MaxInt64 && m >= f.replicas
    ensures Gather(f, [siteType, domain, dbSource, "dynamic", GoFmt.FormatInt(m)] + rest)
            == Some((f.(siteType := siteType, domain := domain, dbSource := dbSource, scalingType := "dynamic",
                        maxReplicas := m), rest))
  {
    var in4 := [GoFmt.FormatInt(m)] + rest;
    var in3 := ["dynamic"] + in4;
    var in2 := [dbSource] + in3;
    var in1 := [domain] + in2;
    assert [siteType, domain, dbSource, "dynamic", GoFmt.FormatInt(m)] + rest == [siteType] + in1;
    PromptIfEmptyReadsWord(siteType, "wp", in1);
    PromptIfEmptyReadsWord(domain, "", in2);
    PromptIfEmptyReadsWord(dbSource, "internal", in3);
    ReadsWordDynamic(in4);
    PromptIntReadsNumber(f.replicas, m, rest, 0);
  }

  lemma ReadsWordDynamic(rest: seq<string>)
    ensures PromptIfEmpty("", "static", ["dynamic"] + rest) == ("dynamic", rest)
  {
    assert IsWord("dynamic");
    PromptIfEmptyReadsWord("dynamic", "static", rest);
  }

  /** The check on `max_replicas` cannot fail when runNewSite prompted for the maximum. */
  lemma PromptedMaximumPasses(f: SiteFlags, input: seq<string>)
    requires f.maxReplicas == 0 && Gather(f, input).Some?
    ensures var g := Gather(f, input).value.0;
            ValidateInputs(g.siteType, g.domain, g.dbSource, g.scalingType, g.replicas, g.maxReplicas)
              != Some(MaxReplicasBelowReplicas)
  {
    var g := Gather(f, input).value.0;
    assert Passes(MaxReplicasBelowReplicas, g.siteType, g.domain, g.dbSource, g.scalingType, g.replicas, g.maxReplicas);
  }

  /** With every flag at its default and no input, the prompts take their defaults and the empty domain is rejected. */
  lemma NoInputNoDomain()
    ensures Gather(DefaultFlags, []) == Some((DefaultFlags.(siteType := "wp", dbSource := "internal", scalingType := "static"), []))
    ensures ValidateInputs("wp", "", "internal", "static", 1, 0) == Some(DomainRequired)
  {
  }

  // ---------------------------------------------------------------------------
  // setupInternalMySQL

  const StatusArgv := ["ploy", "services", "status", "mysql"]
  const InstallArgv := ["ploy", "services", "install", "mysql"]

  /** The commands setupInternalMySQL runs and its error. */
  function SetupInternalMySQL(run: seq<string> -> Result<string, string>): (r: (seq<Effect>, Option<string>))
    ensures |r.0| >= 1 && r.0[0] == Command(StatusArgv) && Command(StatusArgv) !in r.0[1..]
    ensures |r.0| == 2 <==> run(StatusArgv).Err? || !Contains(run(StatusArgv).value, "running")
    ensures |r.0| <= 2 && (|r.0| == 2 ==> r.0[1] == Command(InstallArgv))
    ensures r.1.Some? <==> |r.0| == 2 && run(InstallArgv).Err?
    ensures r.1.Some? ==> r.1.value == "failed to install MySQL: " + run(InstallArgv).error
  {
    var status := run(StatusArgv);
    if status.Err? || !Contains(status.value, "running") then
      var install := run(InstallArgv);
      assert [Command(StatusArgv), Command(InstallArgv)][1..] == [Command(InstallArgv)];
      if install.Err? then ([Command(StatusArgv), Command(InstallArgv)], Some("failed to install MySQL: " + install.error))
      else ([Command(StatusArgv), Command(InstallArgv)], None)
    else ([Command(StatusArgv)], None)
  }

  // ---------------------------------------------------------------------------
  // launchSite

  /** The `${...}` placeholders of the template and their values, in the order launchSite replaces them. */
  function Placeholders(dbHost: string, dbPort: string, dbName: string, dbUser: string, dbPassword: string,
                        domain: string, replicas: int): (ps: seq<(string, string)>)
    ensures NonEmptyPatterns(ps) && |ps| == 7
  {
    [("${DB_HOST}", dbHost), ("${DB_PORT}", dbPort), ("${DB_NAME}", dbName), ("${DB_USER}", dbUser),
     ("${DB_PASSWORD}", dbPassword), ("${DOMAIN}", domain), ("${REPLICAS}", GoFmt.FormatInt(replicas))]
  }

  /** The successive ReplaceAll calls of launchSite that turn the template into the compose file. */
  method RenderCompose(template: string, dbHost: string, dbPort: string, dbName: string, dbUser: string,
                       dbPassword: string, domain: string, replicas: int) returns (content: string)
    ensures content == ReplaceEach(template, Placeholders(dbHost, dbPort, dbName, dbUser, dbPassword, domain, replicas))
  {
    ghost var ps := Placeholders(dbHost, dbPort, dbName, dbUser, dbPassword, domain, replicas);
    assert ReplaceEach(template, ps[..0]) == template;
    content := ReplaceAll(template, "${DB_HOST}", dbHost);
    ReplaceEachSnoc(template, ps[..0], ps[0]);
    assert ps[..1] == ps[..0] + [ps[0]];
    content := ReplaceAll(content, "${DB_PORT}", dbPort);
    ReplaceEachSnoc(template, ps[..1], ps[1]);
    assert ps[..2] == ps[..1] + [ps[1]];
    content := ReplaceAll(content, "${DB_NAME}", dbName);
    ReplaceEachSnoc(template, ps[..2], ps[2]);
    assert ps[..3] == ps[..2] + [ps[2]];
    content := ReplaceAll(content, "${DB_USER}", dbUser);
    ReplaceEachSnoc(template, ps[..3], ps[3]);
    assert ps[..4] == ps[..3] + [ps[3]];
    content := ReplaceAll(content, "${DB_PASSWORD}", dbPassword);
    ReplaceEachSnoc(template, ps[..4], ps[4]);
    assert ps[..5] == ps[..4] + [ps[4]];
    content := ReplaceAll(content, "${DOMAIN}", domain);
    ReplaceEachSnoc(template, ps[..5], ps[5]);
    assert ps[..6] == ps[..5] + [ps[5]];
    content := ReplaceAll(content, "${REPLICAS}", GoFmt.FormatInt(replicas));
    ReplaceEachSnoc(template, ps[..6], ps[6]);
    assert ps[..7] == ps[..6] + [ps[6]] && ps[..7] == ps;
  }

  /** A template without any of the placeholders is written as it is. */
  lemma RenderWithoutPlaceholders(template: string, dbHost: string, dbPort: string, dbName: string, dbUser: string,
                                  dbPassword: string, domain: string, replicas: int)
    requires forall p :: p in ["${DB_HOST}", "${DB_PORT}", "${DB_NAME}", "${DB_USER}", "${DB_PASSWORD}", "${DOMAIN}", "${REPLICAS}"]
                         ==> !Contains(template, p)
    ensures ReplaceEach(template, Placeholders(dbHost, dbPort, dbName, dbUser, dbPassword, domain, replicas)) == template
  {
    var ps := Placeholders(dbHost, dbPort, dbName, dbUser, dbPassword, domain, replicas);
    forall k | 0 <= k < |ps|
      ensures !Contains(template, ps[k].0)
    {
      assert ps[k].0 in ["${DB_HOST}", "${DB_PORT}", "${DB_NAME}", "${DB_USER}", "${DB_PASSWORD}", "${DOMAIN}", "${REPLICAS}"];
    }
    ReplaceEachAbsent(template, ps);
  }

  /** The seven template placeholders are distinct, and none occurs inside another. */
  lemma TemplatePlaceholdersApart(dbHost: string, dbPort: string, dbName: string, dbUser: string, dbPassword: string,
                                  domain: string, replicas: int)
    ensures var ps := Placeholders(dbHost, dbPort, dbName, dbUser, dbPassword, domain, replicas);
            forall j, k :: 0 <= j < |ps| && 0 <= k < |ps| && j != k ==> !Contains(ps[j].0, ps[k].0)
  {
    var ps := Placeholders(dbHost, dbPort, dbName, dbUser, dbPassword, domain, replicas);
    assert IsPlaceholder(ps[0].0) && IsPlaceholder(ps[1].0) && IsPlaceholder(ps[2].0) && IsPlaceholder(ps[3].0)
           && IsPlaceholder(ps[4].0) && IsPlaceholder(ps[5].0) && IsPlaceholder(ps[6].0);
    PlaceholdersApart(ps);
  }

  /**
   * Each placeholder, on its own, becomes its value, and that value then goes through
   * the later replacements only: a value holding a later placeholder is rewritten
   * again, one holding an earlier placeholder is left as it is.
   */
  lemma PlaceholderBecomesValue(dbHost: string, dbPort: string, dbName: string, dbUser: string, dbPassword: string,
                                domain: string, replicas: int, k: nat)
    requires k < 7
    ensures var ps := Placeholders(dbHost, dbPort, dbName, dbUser, dbPassword, domain, replicas);
            ReplaceEach(ps[k].0, ps) == ReplaceEach(ps[k].1, ps[k + 1..])
  {
    var ps := Placeholders(dbHost, dbPort, dbName, dbUser, dbPassword, domain, replicas);
    TemplatePlaceholdersApart(dbHost, dbPort, dbName, dbUser, dbPassword, domain, replicas);
    ReplaceEachWhole(ps[k].0, ps, k);
  }

  /** `${REPLICAS}` becomes the number of replicas in decimal. */
  lemma ReplicasInDecimal(dbHost: string, dbPort: string, dbName: string, dbUser: string, dbPassword: string,
                          domain: string, replicas: int)
    ensures ReplaceEach("${REPLICAS}", Placeholders(dbHost, dbPort, dbName, dbUser, dbPassword, domain, replicas))
            == GoFmt.FormatInt(replicas)
  {
    var ps := Placeholders(dbHost, dbPort, dbName, dbUser, dbPassword, domain, replicas);
    PlaceholderBecomesValue(dbHost, dbPort, dbName, dbUser, dbPassword, domain, replicas, 6);
    assert ps[7..] == [];
  }

  /** The template path: wp-compose-dynamic.yml for dynamic scaling, wp-compose-static.yml otherwise, under $HOME/docker/wp. */
  function TemplatePath(home: string, scalingType: string): string {
    PathJoin([home, "docker", "wp", if scalingType == "dynamic" then "wp-compose-dynamic.yml" else "wp-compose-static.yml"])
  }

  /** Where launchSite writes the compose file: $HOME/<domain>/docker-compose.yml. */
  function SiteComposeFile(home: string, domain: string): string {
    PathJoin([home, domain, Files.ComposeFileName])
  }

  /** For a clean absolute home, the template is in docker/wp under it, chosen by the scaling type alone. */
  lemma TemplatePathIn(hs: seq<string>, scalingType: string)
    requires PlainNames(hs)
    ensures TemplatePath(Render(hs), scalingType)
            == Render(hs + ["docker", "wp", if scalingType == "dynamic" then "wp-compose-dynamic.yml" else "wp-compose-static.yml"])
  {
    var file := if scalingType == "dynamic" then "wp-compose-dynamic.yml" else "wp-compose-static.yml";
    assert PlainNames(["docker", "wp", file]) by {
      assert PlainName("docker") && PlainName("wp") && PlainName(file);
    }
    PathJoinRender(hs, ["docker", "wp", file]);
  }

  /**
   * For a clean absolute home and a domain that is a plain path element, the compose
   * file goes into the domain's directory right under home, and FindComposeFile run
   * from that directory finds it there.
   */
  lemma SiteComposeFileIn(hs: seq<string>, domain: string, existing: set<string>)
    requires PlainNames(hs) && PlainName(domain)
    ensures SiteComposeFile(Render(hs), domain) == Files.ComposeIn(hs + [domain])
    ensures SiteComposeFile(Render(hs), domain) in existing ==>
              Files.FindFrom(hs + [domain], Render(hs), existing) == Some(SiteComposeFile(Render(hs), domain))
  {
    assert PlainNames([domain, Files.ComposeFileName]) by {
      assert PlainName(Files.ComposeFileName);
    }
    PathJoinRender(hs, [domain, Files.ComposeFileName]);
    assert hs + [domain, Files.ComposeFileName] == (hs + [domain]) + [Files.ComposeFileName];
    var cs := hs + [domain];
    assert cs[..|cs|] == cs;
    if SiteComposeFile(Render(hs), domain) in existing {
      Files.FindFromNearest(cs, Render(hs), existing, |cs|);
    }
  }

  /** The database settings of the site: from the MySQL details for an internal source ("" for each one missing). */
  function DatabaseSettings(g: SiteFlags, run: seq<string> -> Result<string, string>): (r: Result<SiteFlags, string>)
    ensures g.dbSource != "internal" ==> r == Ok(g)
    ensures g.dbSource == "internal" ==> r.Ok?
    ensures g.dbSource == "internal" && Services.MySQLDetails(run).Err? ==>
              r == Ok(g.(dbHost := "", dbPort := "", dbName := "", dbUser := "", dbPassword := ""))
    ensures g.dbSource == "internal" && Services.MySQLDetails(run).Ok? ==>
              var d := Services.MySQLDetails(run).value;
              r == Ok(g.(dbHost := d["Host"], dbPort := d["Port"], dbName := d["Database"],
                         dbUser := Services.Lookup(d, "User"), dbPassword := Services.Lookup(d, "Password")))
  {
    if g.dbSource != "internal" then Ok(g)
    else
      match Services.ServiceDetails("mysql", run)
      case Err(e) => Err(e)
      case Ok(details) =>
        var d := match details case None => map[] case Some(m) => m;
        Ok(g.(dbHost := Services.Lookup(d, "Host"), dbPort := Services.Lookup(d, "Port"),
              dbName := Services.Lookup(d, "Database"), dbUser := Services.Lookup(d, "User"),
              dbPassword := Services.Lookup(d, "Password")))
  }

  /**
   * The `docker` commands launchSite runs through getServiceDetails before it reads
   * the template: getMySQLDetails' queries for an internal source, none otherwise.
   */
  function DetailQueries(g: SiteFlags, run: seq<string> -> Result<string, string>): (q: seq<Effect>)
    ensures g.dbSource != "internal" ==> q == []
    ensures g.dbSource == "internal" ==>
              var qs := Services.MySQLQueries(run);
              |q| == |qs| && forall k :: 0 <= k < |q| ==> q[k] == Command(qs[k])
    ensures forall k :: 0 <= k < |q| ==> q[k].Command? && q[k].argv != [] && q[k].argv[0] == "docker"
  {
    if g.dbSource != "internal" then []
    else
      var qs := Services.MySQLQueries(run);
      seq(|qs|, k requires 0 <= k < |qs| => Command(qs[k]))
  }

  /**
   * launchSite after the MySQL queries: read the template, fill it in, create the site
   * directory, write the compose file and start it with `docker-compose -f <file> up -d`.
   * Each failure ends the run with its own message prefix, and nothing after it happens.
   */
  function LaunchSteps(g: SiteFlags, home: string, run: seq<string> -> Result<string, string>,
                       read: string -> Result<string, string>, mkdirError: Option<string>, writeError: Option<string>)
    : (r: (seq<Effect>, Option<string>))
    ensures forall k :: 0 <= k < |r.0| ==>
              r.0[k].ReadFile? || r.0[k].MakeDirs? || r.0[k].WriteFile?
              || r.0[k] == Command(["docker-compose", "-f", SiteComposeFile(home, g.domain), "up", "-d"])
    ensures DatabaseSettings(g, run).Err? ==> r == ([], Some(DatabaseSettings(g, run).error))
    ensures DatabaseSettings(g, run).Ok? ==>
              var t := TemplatePath(home, g.scalingType);
              |r.0| >= 1 && r.0[0] == ReadFile(t)
              && (read(t).Err? ==> r == ([ReadFile(t)], Some("failed to read Docker Compose template: " + read(t).error)))
    ensures DatabaseSettings(g, run).Ok? && read(TemplatePath(home, g.scalingType)).Ok? ==>
              var s := DatabaseSettings(g, run).value;
              var t := TemplatePath(home, g.scalingType);
              var file := SiteComposeFile(home, g.domain);
              var content := ReplaceEach(read(t).value, Placeholders(s.dbHost, s.dbPort, s.dbName, s.dbUser, s.dbPassword, g.domain, g.replicas));
              var up := ["docker-compose", "-f", file, "up", "-d"];
              r == (if mkdirError.Some? then
                      ([ReadFile(t), MakeDirs(Dir(file))], Some("failed to create directory: " + mkdirError.value))
                    else if writeError.Some? then
                      ([ReadFile(t), MakeDirs(Dir(file)), WriteFile(file, content)],
                       Some("failed to write docker-compose file: " + writeError.value))
                    else
                      ([ReadFile(t), MakeDirs(Dir(file)), WriteFile(file, content), Command(up)],
                       if run(up).Err? then Some("failed to launch site: " + run(up).error) else None))
  {
    match DatabaseSettings(g, run)
    case Err(e) => ([], Some(e))
    case Ok(s) =>
      var templatePath := TemplatePath(home, g.scalingType);
      match read(templatePath)
      case Err(e) => ([ReadFile(templatePath)], Some("failed to read Docker Compose template: " + e))
      case Ok(template) =>
        var content := ReplaceEach(template, Placeholders(s.dbHost, s.dbPort, s.dbName, s.dbUser, s.dbPassword, g.domain, g.replicas));
        var file := SiteComposeFile(home, g.domain);
        if mkdirError.Some? then
          ([ReadFile(templatePath), MakeDirs(Dir(file))], Some("failed to create directory: " + mkdirError.value))
        else if writeError.Some? then
          ([ReadFile(templatePath), MakeDirs(Dir(file)), WriteFile(file, content)],
           Some("failed to write docker-compose file: " + writeError.value))
        else
          var up := ["docker-compose", "-f", file, "up", "-d"];
          var effects := [ReadFile(templatePath), MakeDirs(Dir(file)), WriteFile(file, content), Command(up)];
          match run(up)
          case Err(e) => (effects, Some("failed to launch site: " + e))
          case Ok(_) => (effects, None)
  }

  /**
   * launchSite: for an internal source the MySQL details are queried first (those
   * `docker` commands lead the trace), then the launch steps run.
   */
  function LaunchSite(g: SiteFlags, home: string, run: seq<string> -> Result<string, string>,
                      read: string -> Result<string, string>, mkdirError: Option<string>, writeError: Option<string>)
    : (r: (seq<Effect>, Option<string>))
    ensures var q := DetailQueries(g, run);
            var steps := LaunchSteps(g, home, run, read, mkdirError, writeError);
            |r.0| == |q| + |steps.0| && r.0[..|q|] == q && r.0[|q|..] == steps.0 && r.1 == steps.1
  {
    var (steps, err) := LaunchSteps(g, home, run, read, mkdirError, writeError);
    var q := DetailQueries(g, run);
    assert (q + steps)[|q|..] == steps;
    (q + steps, err)
  }

  /** A launch that succeeds ends by starting the site's compose file. */
  lemma LaunchSiteSucceeds(g: SiteFlags, home: string, run: seq<string> -> Result<string, string>,
                           read: string -> Result<string, string>, mkdirError: Option<string>, writeError: Option<string>)
    requires LaunchSite(g, home, run, read, mkdirError, writeError).1.None?
    ensures var effects := LaunchSite(g, home, run, read, mkdirError, writeError).0;
            var up := ["docker-compose", "-f", SiteComposeFile(home, g.domain), "up", "-d"];
            |effects| == |DetailQueries(g, run)| + 4 && effects[|effects| - 1] == Command(up) && run(up).Ok?
            && mkdirError.None? && writeError.None? && read(TemplatePath(home, g.scalingType)).Ok?
  {
    var q := DetailQueries(g, run);
    var steps := LaunchSteps(g, home, run, read, mkdirError, writeError).0;
    var effects := LaunchSite(g, home, run, read, mkdirError, writeError).0;
    assert |steps| == 4;
    assert effects[|effects| - 1] == effects[|q|..][|steps| - 1];
  }

  // ---------------------------------------------------------------------------
  // runNewSite

  /** What `sites new` did and the last line it printed. */
  datatype NewSiteRun = NewSiteRun(effects: seq<Effect>, message: string)

  /**
   * How runNewSite reports its two phases: a setup error stops it with the setup's
   * effects only; a launch error is reported after the effects of both; a success is
   * announced and, when a webhook is given, posted to it.
   */
  function Announce(webhook: string, setup: (seq<Effect>, Option<string>), launch: (seq<Effect>, Option<string>))
    : (r: NewSiteRun)
    ensures setup.1.Some? ==> r == NewSiteRun(setup.0, "Error setting up internal MySQL: " + setup.1.value)
    ensures setup.1.None? && launch.1.Some? ==> r == NewSiteRun(setup.0 + launch.0, "Error launching site: " + launch.1.value)
    ensures setup.1.None? && launch.1.None? ==>
              r.message == "Site launched successfully!"
              && r.effects == setup.0 + launch.0 + (if webhook != "" then [PostWebhook(webhook, "Site launched successfully")] else [])
  {
    if setup.1.Some? then NewSiteRun(setup.0, "Error setting up internal MySQL: " + setup.1.value)
    else if launch.1.Some? then NewSiteRun(setup.0 + launch.0, "Error launching site: " + launch.1.value)
    else
      var posted := if webhook != "" then [PostWebhook(webhook, "Site launched successfully")] else [];
      NewSiteRun(setup.0 + launch.0 + posted, "Site launched successfully!")
  }

  /**
   * The part of runNewSite after validation: an internal source checks (and if
   * needed installs) MySQL first, then the site is launched and the outcome announced.
   */
  function SetupAndLaunch(g: SiteFlags, home: string, run: seq<string> -> Result<string, string>,
                          read: string -> Result<string, string>, mkdirError: Option<string>, writeError: Option<string>)
    : (r: NewSiteRun)
    ensures var setup := if g.dbSource == "internal" then SetupInternalMySQL(run) else ([], None);
            var launch := LaunchSite(g, home, run, read, mkdirError, writeError);
            (setup.1.Some? ==> r == NewSiteRun(setup.0, "Error setting up internal MySQL: " + setup.1.value))
            && (setup.1.None? && launch.1.Some? ==> r == NewSiteRun(setup.0 + launch.0, "Error launching site: " + launch.1.value))
            && (setup.1.None? && launch.1.None? ==>
                  r.message == "Site launched successfully!"
                  && r.effects == setup.0 + launch.0 + (if g.webhook != "" then [PostWebhook(g.webhook, "Site launched successfully")] else []))
  {
    var setup := if g.dbSource == "internal" then SetupInternalMySQL(run) else ([], None);
    Announce(g.webhook, setup, LaunchSite(g, home, run, read, mkdirError, writeError))
  }

  /**
   * runNewSite. `None` is the run stuck prompting for the maximum at the end of
   * input; validation errors stop it before any effect.
   */
  function RunNewSite(f: SiteFlags, input: seq<string>, home: string, run: seq<string> -> Result<string, string>,
                      read: string -> Result<string, string>, mkdirError: Option<string>, writeError: Option<string>)
    : (r: Option<NewSiteRun>)
    ensures r.None? <==> Gather(f, input).None?
    ensures r.Some? ==>
              var g := Gather(f, input).value.0;
              var v := ValidateInputs(g.siteType, g.domain, g.dbSource, g.scalingType, g.replicas, g.maxReplicas);
              (v.Some? ==> r.value == NewSiteRun([], "Error: " + Message(v.value)))
              && (v.None? ==> r.value == SetupAndLaunch(g, home, run, read, mkdirError, writeError))
  {
    match Gather(f, input)
    case None => None
    case Some((g, _)) =>
      match ValidateInputs(g.siteType, g.domain, g.dbSource, g.scalingType, g.replicas, g.maxReplicas)
      case Some(e) => Some(NewSiteRun([], "Error: " + Message(e)))
      case None => Some(SetupAndLaunch(g, home, run, read, mkdirError, writeError))
  }

  /** Number of times `e` occurs in `s`. */
  function Occurrences(s: seq<Effect>, e: Effect): nat
    decreases |s|
  {
    if s == [] then 0 else (if s[0] == e then 1 else 0) + Occurrences(s[1..], e)
  }

  lemma {:induction false} OccurrencesAppend(s: seq<Effect>, t: seq<Effect>, e: Effect)
    ensures Occurrences(s + t, e) == Occurrences(s, e) + Occurrences(t, e)
    decreases |s|
  {
    if s == [] {
      assert s + t == t;
    } else {
      OccurrencesAppend(s[1..], t, e);
      assert (s + t)[1..] == s[1..] + t;
    }
  }

  lemma {:induction false} OccurrencesAbsent(s: seq<Effect>, e: Effect)
    requires e !in s
    ensures Occurrences(s, e) == 0
    decreases |s|
  {
    if s != [] {
      OccurrencesAbsent(s[1..], e);
    }
  }

  /** Effects that run only `docker` or `docker-compose` and post to no webhook. */
  predicate DockerOnly(s: seq<Effect>) {
    forall k :: 0 <= k < |s| ==>
      !s[k].PostWebhook? && (s[k].Command? ==> s[k].argv != [] && (s[k].argv[0] == "docker" || s[k].argv[0] == "docker-compose"))
  }

  lemma DockerOnlyAppend(a: seq<Effect>, b: seq<Effect>)
    requires DockerOnly(a) && DockerOnly(b)
    ensures DockerOnly(a + b)
  {
    assert forall k :: |a| <= k < |a + b| ==> (a + b)[k] == b[k - |a|];
  }

  /** launchSite runs only `docker` and `docker-compose`: the MySQL queries, then file access and `docker-compose up`. */
  lemma LaunchSiteDockerOnly(g: SiteFlags, home: string, run: seq<string> -> Result<string, string>,
                             read: string -> Result<string, string>, mkdirError: Option<string>, writeError: Option<string>)
    ensures DockerOnly(LaunchSite(g, home, run, read, mkdirError, writeError).0)
  {
    var q := DetailQueries(g, run);
    var steps := LaunchSteps(g, home, run, read, mkdirError, writeError).0;
    LaunchStepsDockerOnly(g, home, run, read, mkdirError, writeError);
    DockerOnlySplit(LaunchSite(g, home, run, read, mkdirError, writeError).0, q, steps);
  }

  lemma LaunchStepsDockerOnly(g: SiteFlags, home: string, run: seq<string> -> Result<string, string>,
                              read: string -> Result<string, string>, mkdirError: Option<string>, writeError: Option<string>)
    ensures DockerOnly(LaunchSteps(g, home, run, read, mkdirError, writeError).0)
  {
  }

  lemma DockerOnlySplit(r: seq<Effect>, q: seq<Effect>, steps: seq<Effect>)
    requires |r| == |q| + |steps| && r[..|q|] == q && r[|q|..] == steps
    requires DockerOnly(q) && DockerOnly(steps)
    ensures DockerOnly(r)
  {
    assert r == q + steps by {
      assert r == r[..|q|] + r[|q|..];
    }
    DockerOnlyAppend(q, steps);
  }

  /** launchSite itself never runs the MySQL status probe or the installer. */
  lemma LaunchSiteRunsNoPloy(g: SiteFlags, home: string, run: seq<string> -> Result<string, string>,
                             read: string -> Result<string, string>, mkdirError: Option<string>, writeError: Option<string>)
    ensures Command(StatusArgv) !in LaunchSite(g, home, run, read, mkdirError, writeError).0
    ensures Command(InstallArgv) !in LaunchSite(g, home, run, read, mkdirError, writeError).0
  {
    LaunchSiteDockerOnly(g, home, run, read, mkdirError, writeError);
    DockerOnlyNoPloy(LaunchSite(g, home, run, read, mkdirError, writeError).0);
  }

  lemma DockerOnlyNoPloy(s: seq<Effect>)
    requires DockerOnly(s)
    ensures Command(StatusArgv) !in s && Command(InstallArgv) !in s
  {
    assert StatusArgv[0] == "ploy" && InstallArgv[0] == "ploy";
  }

  /**
   * For a valid internal-database site, MySQL's status is probed exactly once, and
   * the installer runs exactly once when the probe fails or does not report
   * "running", and never otherwise.
   */
  lemma NewSiteProbesOnce(g: SiteFlags, home: string, run: seq<string> -> Result<string, string>,
                          read: string -> Result<string, string>, mkdirError: Option<string>, writeError: Option<string>)
    requires g.dbSource == "internal"
    ensures var effects := SetupAndLaunch(g, home, run, read, mkdirError, writeError).effects;
            Occurrences(effects, Command(StatusArgv)) == 1
            && Occurrences(effects, Command(InstallArgv))
               == (if run(StatusArgv).Err? || !Contains(run(StatusArgv).value, "running") then 1 else 0)
  {
    var setup := SetupInternalMySQL(run);
    var launch := LaunchSite(g, home, run, read, mkdirError, writeError);
    assert SetupAndLaunch(g, home, run, read, mkdirError, writeError) == Announce(g.webhook, setup, launch);
    LaunchSiteRunsNoPloy(g, home, run, read, mkdirError, writeError);
    SetupCounts(run);
    AnnounceCounts(g.webhook, setup, launch, Command(StatusArgv));
    AnnounceCounts(g.webhook, setup, launch, Command(InstallArgv));
  }

  /** A command the launch does not perform occurs in the announced run as often as in the setup. */
  lemma AnnounceCounts(webhook: string, setup: (seq<Effect>, Option<string>), launch: (seq<Effect>, Option<string>),
                       e: Effect)
    requires e.Command? && e !in launch.0
    ensures Occurrences(Announce(webhook, setup, launch).effects, e) == Occurrences(setup.0, e)
  {
    if setup.1.None? {
      var posted := if webhook != "" then [PostWebhook(webhook, "Site launched successfully")] else [];
      var rest := if launch.1.Some? then launch.0 else launch.0 + posted;
      assert Announce(webhook, setup, launch).effects == setup.0 + rest;
      CountsAfterPrefix(setup.0, rest, e);
    }
  }

  /** setupInternalMySQL probes once and installs at most once. */
  lemma SetupCounts(run: seq<string> -> Result<string, string>)
    ensures var setup := SetupInternalMySQL(run).0;
            Occurrences(setup, Command(StatusArgv)) == 1
            && Occurrences(setup, Command(InstallArgv))
               == (if run(StatusArgv).Err? || !Contains(run(StatusArgv).value, "running") then 1 else 0)
  {
    var setup := SetupInternalMySQL(run).0;
    if |setup| == 2 {
      assert setup == [Command(StatusArgv)] + [Command(InstallArgv)];
      assert StatusArgv[2] != InstallArgv[2];
      OccurrencesAppend([Command(StatusArgv)], [Command(InstallArgv)], Command(StatusArgv));
      OccurrencesAppend([Command(StatusArgv)], [Command(InstallArgv)], Command(InstallArgv));
    } else {
      assert setup == [Command(StatusArgv)];
      assert setup[1..] == [];
    }
  }

  lemma CountsAfterPrefix(s: seq<Effect>, rest: seq<Effect>, e: Effect)
    requires e !in rest
    ensures Occurrences(s + rest, e) == Occurrences(s, e)
  {
    OccurrencesAppend(s, rest, e);
    OccurrencesAbsent(rest, e);
  }

  /** An external database is never probed or installed. */
  lemma ExternalDatabaseSkipsMySQL(g: SiteFlags, home: string, run: seq<string> -> Result<string, string>,
                                   read: string -> Result<string, string>, mkdirError: Option<string>, writeError: Option<string>)
    requires g.dbSource != "internal"
    ensures var effects := SetupAndLaunch(g, home, run, read, mkdirError, writeError).effects;
            Command(StatusArgv) !in effects && Command(InstallArgv) !in effects
  {
    var launch := LaunchSite(g, home, run, read, mkdirError, writeError);
    assert SetupAndLaunch(g, home, run, read, mkdirError, writeError) == Announce(g.webhook, ([], None), launch);
    LaunchSiteRunsNoPloy(g, home, run, read, mkdirError, writeError);
  }

  /**
   * The webhook is posted only after a successful launch, with the fixed message,
   * and always then when one is given.
   */
  lemma WebhookOnlyOnSuccess(g: SiteFlags, home: string, run: seq<string> -> Result<string, string>,
                             read: string -> Result<string, string>, mkdirError: Option<string>, writeError: Option<string>,
                             url: string, message: string)
    ensures var r := SetupAndLaunch(g, home, run, read, mkdirError, writeError);
            PostWebhook(url, message) in r.effects <==>
              r.message == "Site launched successfully!" && url == g.webhook != "" && message == "Site launched successfully"
  {
    var launch := LaunchSite(g, home, run, read, mkdirError, writeError);
    LaunchSiteNoWebhook(g, home, run, read, mkdirError, writeError, url, message);
    if g.dbSource == "internal" {
      assert SetupAndLaunch(g, home, run, read, mkdirError, writeError) == Announce(g.webhook, SetupInternalMySQL(run), launch);
      SetupNoWebhook(run, url, message);
      AnnounceWebhook(g.webhook, SetupInternalMySQL(run), launch, url, message);
    } else {
      assert SetupAndLaunch(g, home, run, read, mkdirError, writeError) == Announce(g.webhook, ([], None), launch);
      AnnounceWebhook(g.webhook, ([], None), launch, url, message);
    }
  }

  /** setupInternalMySQL only runs commands. */
  lemma SetupNoWebhook(run: seq<string> -> Result<string, string>, url: string, message: string)
    ensures PostWebhook(url, message) !in SetupInternalMySQL(run).0
  {
    var setup := SetupInternalMySQL(run).0;
    assert setup == [Command(StatusArgv)] || setup == [Command(StatusArgv), Command(InstallArgv)];
  }

  /** When neither phase posts, the announced run posts exactly the success message to the given webhook. */
  lemma AnnounceWebhook(webhook: string, setup: (seq<Effect>, Option<string>), launch: (seq<Effect>, Option<string>),
                        url: string, message: string)
    requires PostWebhook(url, message) !in setup.0 && PostWebhook(url, message) !in launch.0
    ensures var r := Announce(webhook, setup, launch);
            PostWebhook(url, message) in r.effects <==>
              r.message == "Site launched successfully!" && url == webhook != "" && message == "Site launched successfully"
  {
    var r := Announce(webhook, setup, launch);
    var w := PostWebhook(url, message);
    if setup.1.Some? {
      assert r.message[0] == 'E';
    } else if launch.1.Some? {
      assert r.message[0] == 'E';
      assert w !in setup.0 + launch.0;
    } else {
      var posted := if webhook != "" then [PostWebhook(webhook, "Site launched successfully")] else [];
      assert r.effects == (setup.0 + launch.0) + posted;
      assert w !in setup.0 + launch.0;
      assert w in r.effects <==> w in posted;
    }
  }

  lemma LaunchSiteNoWebhook(g: SiteFlags, home: string, run: seq<string> -> Result<string, string>,
                            read: string -> Result<string, string>, mkdirError: Option<string>, writeError: Option<string>,
                            url: string, message: string)
    ensures PostWebhook(url, message) !in LaunchSite(g, home, run, read, mkdirError, writeError).0
  {
    LaunchSiteDockerOnly(g, home, run, read, mkdirError, writeError);
  }

  /** With every flag at its default and no input, nothing is run and the empty domain is reported. */
  lemma NoInputReportsDomain(home: string, run: seq<string> -> Result<string, string>,
                             read: string -> Result<string, string>, mkdirError: Option<string>, writeError: Option<string>)
    ensures RunNewSite(DefaultFlags, [], home, run, read, mkdirError, writeError) == Some(NewSiteRun([], "Error: domain is required"))
  {
    var g := DefaultFlags.(siteType := "wp", dbSource := "internal", scalingType := "static");
    NoInputNoDomain();
    DefaultsFailOnDomain(g);
  }

  lemma DefaultsFailOnDomain(g: SiteFlags)
    requires g == DefaultFlags.(siteType := "wp", dbSource := "internal", scalingType := "static")
    ensures ValidateInputs(g.siteType, g.domain, g.dbSource, g.scalingType, g.replicas, g.maxReplicas) == Some(DomainRequired)
    ensures "Error: " + Message(DomainRequired) == "Error: domain is required"
  {
  }

  // ---------------------------------------------------------------------------
  // startAllSites and stopAllSites

  /** An entry of the sites directory as os.ReadDir lists it. */
  datatype Entry = Entry(name: string, isDir: bool)

  datatype SitesAction = StartAll | StopAll

  function ActionArgs(a: SitesAction): seq<string> {
    if a == StartAll then ["up", "-d"] else ["down"]
  }

  /** The compose file the loop looks for in an entry's directory. */
  function EntryComposeFile(sitesDir: string, name: string): string {
    PathJoin([PathJoin([sitesDir, name]), Files.ComposeFileName])
  }

  /** An entry that is a site: a directory, not hidden, holding a compose file. */
  predicate IsSite(sitesDir: string, e: Entry, existing: set<string>) {
    e.isDir && !HasPrefix(e.name, ".") && EntryComposeFile(sitesDir, e.name) in existing
  }

  /** The compose files RunCompose is called on, in directory order. */
  function SiteComposeFiles(sitesDir: string, entries: seq<Entry>, existing: set<string>): (r: seq<string>)
    ensures |r| <= |entries|
    decreases |entries|
  {
    if entries == [] then []
    else
      var last := entries[|entries| - 1];
      var r := SiteComposeFiles(sitesDir, entries[..|entries| - 1], existing);
      if IsSite(sitesDir, last, existing) then r + [EntryComposeFile(sitesDir, last.name)] else r
  }

  /** One more entry of the listing adds its compose file exactly when it is a site. */
  lemma SiteComposeFilesSnoc(sitesDir: string, entries: seq<Entry>, existing: set<string>, i: nat)
    requires i < |entries|
    ensures SiteComposeFiles(sitesDir, entries[..i + 1], existing)
            == SiteComposeFiles(sitesDir, entries[..i], existing)
               + (if IsSite(sitesDir, entries[i], existing) then [EntryComposeFile(sitesDir, entries[i].name)] else [])
  {
    assert entries[..i + 1][..i] == entries[..i];
  }

  /** The compose files visited are exactly those of the entries that are sites. */
  lemma SiteComposeFilesExact(sitesDir: string, entries: seq<Entry>, existing: set<string>, p: string)
    ensures p in SiteComposeFiles(sitesDir, entries, existing)
            <==> exists i :: 0 <= i < |entries| && IsSite(sitesDir, entries[i], existing)
                             && p == EntryComposeFile(sitesDir, entries[i].name)
  {
    if p in SiteComposeFiles(sitesDir, entries, existing) {
      SiteComposeFilesSound(sitesDir, entries, existing, p);
    }
    if exists i :: 0 <= i < |entries| && IsSite(sitesDir, entries[i], existing)
                   && p == EntryComposeFile(sitesDir, entries[i].name) {
      var i :| 0 <= i < |entries| && IsSite(sitesDir, entries[i], existing)
               && p == EntryComposeFile(sitesDir, entries[i].name);
      SiteComposeFilesComplete(sitesDir, entries, existing, i);
    }
  }

  lemma {:induction false} SiteComposeFilesSound(sitesDir: string, entries: seq<Entry>, existing: set<string>, p: string)
    requires p in SiteComposeFiles(sitesDir, entries, existing)
    ensures exists i :: 0 <= i < |entries| && IsSite(sitesDir, entries[i], existing)
                        && p == EntryComposeFile(sitesDir, entries[i].name)
    decreases |entries|
  {
    var n := |entries| - 1;
    var init := entries[..n];
    if p in SiteComposeFiles(sitesDir, init, existing) {
      SiteComposeFilesSound(sitesDir, init, existing, p);
      var i :| 0 <= i < |init| && IsSite(sitesDir, init[i], existing) && p == EntryComposeFile(sitesDir, init[i].name);
      assert init[i] == entries[i];
    } else {
      assert IsSite(sitesDir, entries[n], existing) && p == EntryComposeFile(sitesDir, entries[n].name);
    }
  }

  lemma {:induction false} SiteComposeFilesComplete(sitesDir: string, entries: seq<Entry>, existing: set<string>, i: nat)
    requires i < |entries| && IsSite(sitesDir, entries[i], existing)
    ensures EntryComposeFile(sitesDir, entries[i].name) in SiteComposeFiles(sitesDir, entries, existing)
    decreases |entries|
  {
    var n := |entries| - 1;
    var init := entries[..n];
    var file := EntryComposeFile(sitesDir, entries[i].name);
    var last := if IsSite(sitesDir, entries[n], existing) then [EntryComposeFile(sitesDir, entries[n].name)] else [];
    assert SiteComposeFiles(sitesDir, entries, existing) == SiteComposeFiles(sitesDir, init, existing) + last;
    if i < n {
      assert init[i] == entries[i];
      SiteComposeFilesComplete(sitesDir, init, existing, i);
    } else {
      assert last == [file];
    }
  }

  /**
   * startAllSites / stopAllSites over the listing of the sites directory
   * (`readDir`, or the error reading it): RunCompose is called with the action's
   * arguments on each site's compose file in turn (`failing` holds those for which
   * it fails); a site counts as found only when its call succeeds, and "No sites
   * found to start." (or "to stop.") is printed when none does.
   */
  method ForAllSites(action: SitesAction, sitesDir: string, readDir: Result<seq<Entry>, string>,
                     existing: set<string>, failing: set<string>)
    returns (calls: seq<seq<string>>, foundSite: bool, message: string)
    ensures readDir.Err? ==>
              calls == [] && !foundSite && message == "Error reading directory " + sitesDir + ": " + readDir.error + "\n"
    ensures readDir.Ok? ==>
              var files := SiteComposeFiles(sitesDir, readDir.value, existing);
              |calls| == |files|
              && (forall k :: 0 <= k < |calls| ==> calls[k] == Compose.BaseArgs(files[k]) + ActionArgs(action))
              && (foundSite <==> exists k :: 0 <= k < |files| && files[k] !in failing)
              && message == (if foundSite then ""
                             else if action == StartAll then "No sites found to start." else "No sites found to stop.")
  {
    calls := [];
    foundSite := false;
    if readDir.Err? {
      return calls, foundSite, "Error reading directory " + sitesDir + ": " + readDir.error + "\n";
    }
    var entries := readDir.value;
    ghost var files: seq<string> := [];
    for i := 0 to |entries|
      invariant files == SiteComposeFiles(sitesDir, entries[..i], existing)
      invariant |calls| == |files|
      invariant forall k :: 0 <= k < |calls| ==> calls[k] == Compose.BaseArgs(files[k]) + ActionArgs(action)
      invariant foundSite <==> exists k :: 0 <= k < |files| && files[k] !in failing
    {
      var entry := entries[i];
      SiteComposeFilesSnoc(sitesDir, entries, existing, i);
      if entry.isDir {
        if HasPrefix(entry.name, ".") {
          continue;
        }
        var path := PathJoin([sitesDir, entry.name]);
        var composePath := PathJoin([path, Files.ComposeFileName]);
        if composePath in existing {
          calls := calls + [Compose.BaseArgs(composePath) + ActionArgs(action)];
          ghost var before := files;
          files := files + [composePath];
          assert forall k :: 0 <= k < |before| ==> files[k] == before[k];
          assert files[|before|] == composePath;
          if composePath in failing {
            assert forall k :: 0 <= k < |files| && files[k] !in failing ==> k < |before| && before[k] !in failing;
            continue;
          }
          assert files[|before|] !in failing;
          foundSite := true;
        }
      }
    }
    assert entries[..|entries|] == entries;
    message := if foundSite then "" else if action == StartAll then "No sites found to start." else "No sites found to stop.";
  }

  /** Neither `up -d` nor `down` begins with `exec`, so RunCompose passes them on unchanged whatever the terminal. */
  lemma ActionArgvUnchanged(a: SitesAction, composePath: string, interactive: bool)
    ensures Compose.ComposeArgv(composePath, ActionArgs(a), interactive) == Compose.BaseArgs(composePath) + ActionArgs(a)
  {
  }

  /**
   * `sites restart`: stopAllSites, then startAllSites, over the same listing; the
   * outcome of each RunCompose call may differ between the two passes.
   */
  method RestartAllSites(sitesDir: string, readDir: Result<seq<Entry>, string>, existing: set<string>,
                         stopFailing: set<string>, startFailing: set<string>)
    returns (calls: seq<seq<string>>, messages: seq<string>)
    ensures readDir.Err? ==>
              var m := "Error reading directory " + sitesDir + ": " + readDir.error + "\n";
              calls == [] && messages == [m, m]
    ensures readDir.Ok? ==>
              var files := SiteComposeFiles(sitesDir, readDir.value, existing);
              |calls| == 2 * |files|
              && (forall k :: 0 <= k < |files| ==>
                    calls[k] == Compose.BaseArgs(files[k]) + ["down"]
                    && calls[|files| + k] == Compose.BaseArgs(files[k]) + ["up", "-d"])
              && messages == [if exists k :: 0 <= k < |files| && files[k] !in stopFailing then "" else "No sites found to stop.",
                              if exists k :: 0 <= k < |files| && files[k] !in startFailing then "" else "No sites found to start."]
  {
    var stopCalls, _, stopMessage := ForAllSites(StopAll, sitesDir, readDir, existing, stopFailing);
    var startCalls, _, startMessage := ForAllSites(StartAll, sitesDir, readDir, existing, startFailing);
    calls := stopCalls + startCalls;
    messages := [stopMessage, startMessage];
    if readDir.Ok? {
      ghost var files := SiteComposeFiles(sitesDir, readDir.value, existing);
      assert ActionArgs(StopAll) == ["down"] && ActionArgs(StartAll) == ["up", "-d"];
      assert forall k :: 0 <= k < |files| ==> calls[k] == stopCalls[k] && calls[|files| + k] == startCalls[k];
    }
  }
}
