# ploy-server-cli: a Dafny model of its command logic

`ploy` is a command-line tool for a server that hosts WordPress sites as Docker
Compose projects. This project models the logic under its commands, once every
call into `docker`, the filesystem, the terminal and the network is made a
parameter:

- **`ploy sites new`** (`src/commands/sites.go`): missing flags are asked for
  with defaults (`promptIfEmpty`). The maximum number of replicas is read until it
  is large enough (`promptInt`). The inputs are checked in a fixed order
  (`validateInputs`). An internal database causes a MySQL status probe, and an
  install when the probe fails (`setupInternalMySQL`). Then `launchSite` picks the
  static or dynamic template, fills in its seven `${...}` placeholders in order,
  and writes and starts `$HOME/<domain>/docker-compose.yml`. A successful launch is
  posted to the optional webhook.
- **`ploy sites start|stop|restart`**: the loops over the sites directory that run
  `docker compose` on each non-hidden directory that holds a compose file.
- **`ploy services`** (`src/commands/services.go`): reading MySQL's password, user
  and database from `docker inspect` output (`KEY=VALUE` lines, split at the first
  `=`), with host and port trimmed and `wordpress` as the default database. Also
  the `details` dispatch, and the placeholder substitution of `install mysql`,
  whose order is Go's map-iteration order.
- **Local commands** (`src/commands/local.go`, `src/docker/compose.go`): the
  argument lists of `start`, `stop`, `restart`, `exec` and `logs`. `RunCompose`
  inserts `-T` after `exec` when stdout is not a terminal. `RunWpCli` picks the
  container, `php` before `litespeed`.
- **Self-update** (`src/utils/update.go`): the string comparison that decides
  whether a newer release exists, the first-match choice of the asset to download,
  and the order in which `SelfUpdate` gives up.
- **Compose-file discovery** (`src/utils/files.go`): the walk up from the working
  directory to the home directory.

How the effects are represented:

- **Commands** are represented by `run: seq<string> -> Result<string, string>`, which
  maps an argument list (program name first) to its output or error text.
- **Files** are `read` (a path to its content or error), `existing` (the paths
  `os.Stat` finds) and explicit error options for creating directories and
  writing files.
- **Standard input** is the sequence of lines not yet read.
- **The terminal**, the effective user id and `runtime.GOOS`/`GOARCH` are plain
  parameters.
- **Traces**: the commands that run (including the `docker ps` and `docker inspect`
  queries of getMySQLDetails), the files read or written and the webhook post are
  returned as a trace of `Effects.Effect` values, so their order and number can be
  stated.
- **Never returning**: a run that never returns (`promptInt` at the end of input,
  `FindComposeFile` outside home) is `None`.

Go's library functions that the logic rests on are modelled from their
documentation:

- `GoStrings`: `strings.Contains`, `ReplaceAll`, `Split`, `Join`, `SplitN(.., 2)`
  and `TrimSpace`.
- `GoPaths`: `filepath.Clean`, `Join`, `Dir` and `Ext`.
- `GoFmt`: `%d`, and `Scanln` into a string or an `int`. For an `int` the scanner
  takes the `%v` verb's token (a sign, a `0b`/`0o`/`0x` or `0` prefix, digits and
  `_`) and converts it with `strconv.ParseInt(tok, 0, 64)`: "010" is 8 and "0x10"
  is 16.

Modules: `Wrappers`, `Effects`, `GoStrings`, `GoFmt`, `GoPaths`, `Compose`,
`Files`, `Local`, `Services`, `Sites`, `Update`.

## Model

| member | source | states |
|---|---|---|
| Sites.ValidateInputs | src/commands/sites.go:241-261 | no error exactly when every check passes; otherwise the error of a failing check all of whose predecessors pass (the first failing check) |
| Sites.ValidateInputsAccepts | src/commands/sites.go:241-261 | accepted iff type is wp, domain non-empty, source internal/external, scaling dynamic/static, replicas >= 1, and max >= replicas when dynamic |
| Sites.ValidateInputsTable | src/commands/sites_test.go:31-37 | the rows of TestValidateInputs with the error each gets; an invalid type with an empty domain reports the type |
| Sites.StaticIgnoresMaxReplicas | src/commands/sites.go:254-259 | for static scaling the maximum does not affect the outcome |
| Sites.PromptIfEmpty | src/commands/sites.go:217-226 | a non-empty value is kept and nothing is read; otherwise one line is consumed and its first field, or the default for a blank line or end of input, is returned |
| Sites.PromptIfEmptyReadsWord | src/commands/sites.go:217-226 | a typed word is returned and the rest of the input kept; a blank line gives the default |
| Sites.PromptIntFrom | src/commands/sites.go:228-239 | any value returned is >= the minimum and the unread input is a suffix of the input |
| Sites.PromptIntFromValue | src/commands/sites.go:228-239 | the value returned is the one already held or the number scanned from one of the lines read |
| Sites.PromptInt | src/commands/sites.go:228-239 | the loop returns what PromptIntFrom describes, starting from Go's zero value |
| Sites.PromptIntReturns | src/commands/sites.go:230-235 | once a line holds a large enough number, promptInt returns at that line or earlier |
| Sites.PromptIntReadsNumber | src/commands/sites.go:231-234 | a line printed with %d holding a large enough number is accepted with exactly that value |
| Sites.PromptIntTooSmall | src/commands/sites.go:232-237 | a line whose number is below the minimum is consumed, its number is held, and the loop asks again |
| Sites.PromptIntOctalTooSmall | src/commands/sites.go:232-237 | "010" scans as 8, so with a minimum of 9 and no more input promptInt never returns |
| Sites.PromptExternal | src/commands/sites.go:176-182 | the five database prompts change only the five database fields and keep the ones already set |
| Sites.PromptFields | src/commands/sites.go:171-184 | the string prompts: set flags are kept, an empty site type takes the answer to the first prompt, database fields change only for an external source, and no more input is left than given |
| Sites.Gather | src/commands/sites.go:171-187 | the prompting of runNewSite: set flags are kept, an empty site type takes the first answer, database fields are asked only for an external source, the maximum is asked (and is >= replicas) only for dynamic scaling without one, and otherwise the result is that of the string prompts |
| Sites.GatherNoInput | src/commands/sites.go:171-187 | with no input every empty prompt takes its default and nothing else changes; only a maximum prompt with replicas > 0 never returns |
| Sites.GatherReadsAnswers | src/commands/sites.go:171-184 | four one-word lines answer site type, domain, source and scaling in that order and exactly those four lines are consumed |
| Sites.GatherReadsExternalAnswers | src/commands/sites.go:171-184 | after the answer "external" the next five lines fill host, port, name, user and password, then scaling; exactly nine lines are consumed |
| Sites.PromptFieldsReadsExternal | src/commands/sites.go:171-184 | the same nine answers fill the same fields in the string prompts alone |
| Sites.GatherReadsMaximum | src/commands/sites.go:171-187 | with "dynamic" typed for scaling, a fifth line holding a number >= replicas becomes the maximum and exactly five lines are consumed |
| Sites.PromptedMaximumPasses | src/commands/sites.go:185-187 | when the maximum was prompted for, the max_replicas check of validateInputs cannot fail |
| Sites.NoInputNoDomain | src/commands/sites.go:172-190 | with default flags and no input the prompts take their defaults and the empty domain is rejected |
| Sites.NoInputReportsDomain | src/commands/sites.go:171-193 | with default flags and no input nothing is run and "Error: domain is required" is printed |
| Sites.DefaultsFailOnDomain | src/commands/sites.go:241-248 | the flag defaults with an empty domain fail on the domain check, reported as "Error: domain is required" |
| Sites.SetupInternalMySQL | src/commands/sites.go:263-276 | the status probe runs first and once; install runs iff the probe fails or lacks "running"; an install failure is "failed to install MySQL: " plus its error |
| Sites.SetupCounts | src/commands/sites.go:263-276 | setup probes exactly once and installs once exactly when the probe fails or lacks "running" |
| Sites.Placeholders | src/commands/sites.go:305-311 | the seven placeholders with their values, each pattern non-empty, in launchSite's order |
| Sites.RenderCompose | src/commands/sites.go:304-311 | the successive ReplaceAll calls give the placeholders applied in order, DB_HOST to REPLICAS |
| Sites.RenderWithoutPlaceholders | src/commands/sites.go:305-311 | a template without any placeholder is written unchanged |
| Sites.TemplatePlaceholdersApart | src/commands/sites.go:305-311 | no placeholder occurs inside another |
| Sites.PlaceholderBecomesValue | src/commands/sites.go:305-311 | each placeholder becomes its value, which then passes only through the later replacements (a later placeholder inside it is rewritten again) |
| Sites.ReplicasInDecimal | src/commands/sites.go:311 | `${REPLICAS}` becomes the decimal form of replicas |
| Sites.TemplatePathIn | src/commands/sites.go:293-296 | the template is $HOME/docker/wp/wp-compose-dynamic.yml iff scaling is dynamic, wp-compose-static.yml otherwise |
| Sites.SiteComposeFileIn | src/commands/sites.go:314 | the compose file is $HOME/<domain>/docker-compose.yml, and FindComposeFile started in that directory finds it |
| Sites.DatabaseSettings | src/commands/sites.go:280-290 | an internal source takes host, port, database, user and password from the MySQL details ("" when no details); an external source keeps the flags |
| Sites.DetailQueries | src/commands/sites.go:280-283 | the docker commands getServiceDetails("mysql") runs for an internal source, none for another source |
| Sites.LaunchSteps | src/commands/sites.go:292-331 | the effects after the MySQL details (read template, make directory, write file, start), each a file step or docker-compose up, and the error of the first failing step, with its own prefix, nothing after it |
| Sites.LaunchSite | src/commands/sites.go:278-331 | the MySQL queries of an internal source lead the trace, followed by the launch steps, and the error is that of the launch steps |
| Sites.LaunchSiteSucceeds | src/commands/sites.go:322-330 | a successful launch performs the queries and exactly four steps, and ends by running docker-compose up -d on the site's compose file |
| Sites.LaunchSiteDockerOnly | src/commands/sites.go:278-331 | every command launchSite runs is docker or docker-compose, and it posts nothing |
| Sites.LaunchSiteRunsNoPloy | src/commands/sites.go:278-331 | launchSite itself never runs the MySQL probe or installer |
| Sites.LaunchSiteNoWebhook | src/commands/sites.go:278-331 | launchSite never posts to a webhook |
| Sites.Announce | src/commands/sites.go:195-214 | a setup error ends the run with the setup's effects only; a launch error follows the effects of both; success prints the success line and posts to the webhook when one is given |
| Sites.AnnounceCounts | src/commands/sites.go:195-214 | a command the launch does not run occurs in the announced run as often as in the setup |
| Sites.AnnounceWebhook | src/commands/sites.go:203-214 | when neither phase posts, the run posts iff it succeeded and a webhook is given, with the fixed message |
| Sites.SetupAndLaunch | src/commands/sites.go:195-214 | setup error stops before launch; launch error is reported; success prints the success line and posts to the webhook when one is given |
| Sites.RunNewSite | src/commands/sites.go:156-215 | never returns iff Gather does; a validation error prints "Error: " plus its message and does nothing; otherwise setup and launch |
| Sites.NewSiteProbesOnce | src/commands/sites.go:196-201 | an internal site probes MySQL exactly once over the whole run and installs it exactly once iff the probe fails or lacks "running" |
| Sites.ExternalDatabaseSkipsMySQL | src/commands/sites.go:196-201 | an external database is never probed or installed |
| Sites.WebhookOnlyOnSuccess | src/commands/sites.go:203-214 | a webhook post happens iff the launch succeeded and a webhook is given, and carries the fixed message |
| Sites.SiteComposeFiles | src/commands/sites.go:94-113 | the compose files visited, at most one per entry, in listing order |
| Sites.SiteComposeFilesSnoc | src/commands/sites.go:94-113 | one more entry adds its compose file exactly when it is a non-hidden directory holding one |
| Sites.SiteComposeFilesExact | src/commands/sites.go:94-113 | a path is visited iff it is the compose file of a listed site entry |
| Sites.SiteComposeFilesSound | src/commands/sites.go:94-113 | every visited path belongs to a site entry |
| Sites.SiteComposeFilesComplete | src/commands/sites.go:94-113 | every site entry's compose file is visited |
| Sites.ForAllSites | src/commands/sites.go:84-154 | a read error ends with its message; otherwise one RunCompose per site in order with up -d or down, found iff some call succeeds, and the "No sites found" line otherwise |
| Sites.ActionArgvUnchanged | src/commands/sites.go:104 | up -d and down reach docker unchanged, whatever the terminal |
| Sites.RestartAllSites | src/commands/sites.go:66-75 | restart is every stop call followed by every start call, each pass with its own "No sites found" line |
| Services.FieldFor | src/commands/services.go:285-292 | exactly the three keys map to Password, User and Database |
| Services.LineSetting | src/commands/services.go:283-293 | a line sets a field iff it splits at an `=` into a known key (without `=`) and a value |
| Services.SplitAtFirst | src/commands/services.go:283 | splitting at the first `=` is unique |
| Services.LineSettingOf | src/commands/services.go:283-292 | `KEY=value` with a known key gives its field and the whole value, even when the value holds `=` |
| Services.ParseEnv | src/commands/services.go:280-294 | the loop filling the map gives EnvDetails of the lines |
| Services.EnvDetailsFields | src/commands/services.go:285-292 | only Password, User and Database are filled |
| Services.EnvDetailsLastWins | src/commands/services.go:282-293 | a field holds the value of the last line that sets it |
| Services.EnvDetailsUnset | src/commands/services.go:282-293 | a field no line sets is absent |
| Services.EnvDetailsSnoc | src/commands/services.go:282-293 | one more line changes at most the field it sets |
| Services.EnvDetailsSetsField | src/commands/services.go:283-292 | a known `KEY=value` line sets its field whatever came before |
| Services.EnvDetailsOfListing | src/commands/services_test.go:307-309 | the test helper's three lines (and the trailing empty line) give the three fields |
| Services.EnvDetailsOfThree | src/commands/services.go:282-293 | three lines setting password, user and database give exactly those three entries |
| Services.MySQLQueries | src/commands/services.go:261-309 | docker ps, then the three inspect calls in source order, each only after the previous one succeeded (ps also with non-empty output); the details succeed iff all four ran and the last succeeded |
| Services.MySQLDetails | src/commands/services.go:261-318 | empty or failing docker ps gives "MySQL container is not running"; on success Host and Port are the trimmed outputs and Database is non-empty |
| Services.MySQLDetailsFields | src/commands/services.go:280-315 | Password and User are those parsed; Database is the parsed one or "wordpress" when absent or empty |
| Services.MySQLDetailsErrors | src/commands/services.go:273-309 | each failing inspect call gives its own message and stops the later calls |
| Services.ServiceDetails | src/commands/services.go:247-259 | "mysql" never errors (a failure becomes no details); any other name is "unsupported service: <name>" |
| Services.Pairs | src/commands/services.go:225-227 | the (placeholder, value) pairs in the visiting order |
| Services.InstallMySQL | src/commands/services.go:209-245 | the read error; otherwise the replaced content is written to the temporary file, docker-compose up runs, the file is removed and the up error is returned |
| Services.InstallWithoutPlaceholders | src/commands/services.go:219-227 | a file without the placeholders is written as read in every visiting order |
| Services.InstallOrderMatters | src/commands/services.go:219-227 | for apart placeholders and a user value equal to the port placeholder, the two visiting orders give different files |
| Services.ReplacementsOf | src/commands/services.go:219-223 | the replacements map written out for that user value |
| Services.VisitOrders | src/commands/services.go:225 | both orders used are possible visiting orders |
| Services.PlaceholdersApart | src/commands/services.go:220-222 | the three MySQL placeholders are non-empty, distinct and not inside one another |
| Compose.ComposeArgv | src/docker/compose.go:20-37 | begins with compose -f path; differs from base + args iff not interactive and args start with exec, in which case -T follows that exec and nothing else changes |
| Compose.ComposeArgvOneMoreT | src/docker/compose.go:24-29 | at most one -T is added |
| Compose.ContainerName | src/docker/compose.go:39-57 | php if present, else litespeed if present, else "no suitable container found"; a read or parse error is returned as is |
| Compose.WpCliArgv | src/docker/compose.go:59-67 | a container error is returned before any compose call; otherwise exec <container> wp then the arguments (with -T when not interactive) |
| Local.ExecArgs | src/commands/local.go:79-89 | starts with exec and a service; the service is the first word when it is php, nginx or litespeed, else php with all words kept in order |
| Local.LogsArgs | src/commands/local.go:109-112 | exactly logs or logs <container> |
| Local.ArgsError | src/commands/local.go:101 | logs refuses more than one argument |
| Local.Run | src/commands/local.go:11-119 | no compose file or exec without words means no compose call, and exec without words prints the yellow "No command provided" and exits zero; start, stop and restart pass up -d, down, restart; a failure prints the command's red line; only logs exits non-zero |
| Local.RestartAlwaysReportsSuccess | src/commands/local.go:56-60 | restart prints "Site restarted successfully" last, even after a failure |
| Local.LogsExitStatus | src/commands/local.go:103-117 | logs exits with status 1 iff no compose file or the compose call fails |
| Local.ExecDockerArgv | src/commands/local.go:81-91 | exec reaches docker as compose -f path exec -T service ... when not interactive, unchanged otherwise |
| Files.FindComposeFile | src/utils/files.go:8-25 | the loop returns what FindFrom describes |
| Files.FindFromNearest | src/utils/files.go:12-23 | the nearest ancestor-or-self holding the file, up to home, is returned; a file in home itself is found |
| Files.FindFromStopsAtHome | src/utils/files.go:15-21 | "" comes only after home was checked without the file |
| Files.FindFromDiverges | src/utils/files.go:12-24 | the loop never returns iff no ancestor-or-self holds the file or is home |
| Files.FindFromSound | src/utils/files.go:13-21 | a returned path exists on the way up; "" only when home is on the way up |
| Files.OutsideHomeNeverReturns | src/utils/files.go:19-23 | from /tmp with home elsewhere and no file, the loop never returns |
| Files.IntendedFind | src/utils/files.go:12-24 | the walk that also stops at `/`: "" or an existing path |
| Files.IntendedFindAgrees | src/utils/files.go:12-24 | it returns what the loop returns wherever the loop returns, and "" where the loop hangs |
| Update.LessIrreflexive | src/utils/update.go:44 | no string sorts before itself |
| Update.LessAsymmetric | src/utils/update.go:44 | string order is asymmetric |
| Update.LessTransitive | src/utils/update.go:44 | string order is transitive |
| Update.LessTotal | src/utils/update.go:44 | any two strings are equal or ordered |
| Update.LessProperPrefix | src/utils/update.go:44 | a proper prefix sorts first |
| Update.CheckForUpdates | src/utils/update.go:25-45 | fetch errors pass through; otherwise the tag and whether it sorts after the current version; an equal tag is no update |
| Update.HasUpdateTrichotomy | src/utils/update.go:44 | never newer both ways; differing tags are newer one way |
| Update.VTagBeatsNumeric | src/utils/update.go:44 | a v-prefixed tag is newer than any version starting with a digit |
| Update.TestTagHasUpdate | src/utils/update_test.go:15-27 | "v1.0.1" is reported as newer than the built-in version |
| Update.TestTagHasUpdateVarsVersion | src/common/vars.go:3 | "v1.0.1" is also newer than the "0.1.1" that src/common/vars.go declares |
| Update.FirstMatch | src/utils/update.go:140-152 | the first asset passing the test, none before it |
| Update.AssetURL | src/utils/update.go:136-153 | the URL of the first passing asset, or "" |
| Update.AssetURLStep | src/utils/update.go:140-150 | the search looks at the first asset, then the rest |
| Update.GetAssetURL | src/utils/update.go:136-153 | the loop with early return gives AssetURL with the filepath.Ext test |
| Update.AssetURLAlwaysEmpty | src/utils/update.go:141 | as written, the result is "" for every release and system |
| Update.IntendedPicksSystemAsset | src/utils/update.go:141-147 | with a suffix test, the first asset named for the system is chosen |
| Update.UnsupportedSystemGetsNothing | src/utils/update.go:142-148 | other systems get "" under either test |
| Update.TestReleaseAsset | src/utils/update_test.go:33-41 | the test release's asset is found by the suffix test and not by the written one |
| Update.Install | src/utils/update.go:59-109 | an empty URL stops with "no suitable binary found for this system" before downloading; otherwise download then the install outcome |
| Update.SelfUpdate | src/utils/update.go:47-110 | non-root fails before any fetch; a fetch error is returned as is; then the asset URL decides the download |
| Update.SelfUpdateNeverDownloads | src/utils/update.go:59-62 | as written no download ever happens, and root always gets "no suitable binary" |
| Update.IntendedSelfUpdate | src/utils/update.go:47-110 | the same ladder with the suffix test |
| Update.IntendedSelfUpdateDownloads | src/utils/update.go:59-67 | with the suffix test, root on linux/amd64 downloads the test release's asset |
| GoStrings.ContainsIffOccurs | src/commands/sites.go:266 | Contains holds iff the text occurs at some index |
| GoStrings.ReplaceAllIsSplitJoin | src/commands/sites.go:305-311 | ReplaceAll equals splitting at the pattern and joining with the replacement |
| GoStrings.ReplaceAllAbsent | src/commands/sites.go:305-311 | text without the pattern is unchanged |
| GoStrings.ReplaceAllWhole | src/commands/sites.go:305-311 | the pattern alone becomes the replacement |
| GoStrings.ReplaceEachSnoc | src/commands/sites.go:305-311 | one more pair is one more ReplaceAll on the result |
| GoStrings.ReplaceEachAbsent | src/commands/sites.go:305-311 | text holding no pattern is unchanged by a series of replacements |
| GoStrings.ReplaceEachWhole | src/commands/sites.go:305-311 | the i-th pattern alone becomes the i-th value, then goes through the later pairs |
| GoStrings.PlaceholderContains | src/commands/sites.go:305-311 | a `${NAME}` placeholder contains no other placeholder |
| GoStrings.SplitJoinRoundTrip | src/commands/services.go:280 | joining a split with its separator gives the text back |
| GoStrings.SplitPiecesFree | src/commands/services.go:280 | no piece contains the separator |
| GoStrings.SplitOnce | src/commands/services.go:283-284 | a two-part result iff the character occurs, cut at its first occurrence |
| GoStrings.TrimSpace | src/commands/services.go:270 | the result is a slice with only white space outside it, neither end white space |
| GoFmt.ScanToken | src/commands/sites.go:220 | a scanned string is a non-empty run without white space |
| GoFmt.ScanIntToken | src/commands/sites.go:232 | the token taken for an `int` operand is a non-empty prefix of the text |
| GoFmt.ParseInt | src/commands/sites.go:232 | a value ParseInt(s, 0, 64) accepts is within Go's 64-bit range |
| GoFmt.ScanInt | src/commands/sites.go:232 | a scanned int is within Go's 64-bit int range |
| GoFmt.ScanIntOf | src/commands/sites.go:232 | a line starting with an unsigned token of valid digits and underscores is scanned as that token's value |
| GoFmt.ScanIntOctal | src/commands/sites.go:232 | "010" is read as octal: 8 |
| GoFmt.ScanIntNotOctal | src/commands/sites.go:232 | "09" stores 0: the token is "0" and the 9 is left behind |
| GoFmt.ScanIntHex | src/commands/sites.go:232 | "0x10" is read as hexadecimal: 16 |
| GoFmt.ScanIntUnderscore | src/commands/sites.go:232 | "1_000" is read as 1000 |
| GoFmt.ScanIntPrefix | src/commands/sites.go:232 | "12abc" stores 12, the number before the junk |
| GoFmt.ScanIntDoubleUnderscore | src/commands/sites.go:232 | "1__0" is rejected and leaves the value unchanged |
| GoFmt.ScanFormatRoundTrip | src/commands/sites.go:232 | a line printed with %d is scanned back as the same number |
| GoFmt.ParseFormatRoundTrip | src/commands/sites.go:232 | ParseInt(tok, 0, 64) reads back Sprintf("%d", n) as n |
| GoFmt.DigitsRoundTrip | src/commands/sites.go:311 | the decimal digits of a natural number read back as that number |
| GoPaths.CleanRender | src/utils/files.go:13 | a path of plain elements is already clean |
| GoPaths.CleanDoubleRoot | src/utils/files.go:13 | a doubled leading slash is removed by Clean |
| GoPaths.CleanTrailingSlash | src/utils/files.go:13 | a trailing slash is removed by Clean |
| GoPaths.PathJoinRender | src/utils/files.go:13 | joining plain names onto a clean absolute path appends them |
| GoPaths.DirRender | src/utils/files.go:23 | Dir is the parent, and Dir("/") is "/" |
| GoPaths.Ext | src/utils/update.go:141 | the extension is "" or starts with a dot and is a suffix of the path |
| GoPaths.ExtOneDot | src/utils/update.go:141 | an extension holds no second dot |
| GoPaths.ExtNeverTarGz | src/utils/update.go:141 | no path has the extension ".tar.gz" |

## Left out

- Process execution, HTTP, file I/O and `os.Stat`/`ReadDir` are external effects. Their
  results are parameters (`run`, `read`, `existing`, error options, a release value),
  and the effects performed are returned as a trace. sendWebhook is the `PostWebhook`
  effect, and its HTTP failure message is not modelled.
- Printing, colours and `os.Exit` are not modelled, except where a line or exit status
  is the outcome the command promises. Local.Run keeps the format text of
  `color.Red(...)` and not the extra error argument it is given.
- Cobra wiring and flag parsing are not modelled. SiteFlags stands for the parsed
  flags, with the defaults declared in `init`. The `services install mysql` flags are
  plain parameters of Services.InstallMySQL.
- Sites.PromptIfEmpty, Sites.PromptIntFrom: each `fmt.Scanln` call is modelled as
  consuming one whole line. The value it stores is modelled (the first field, or the
  `int` token's value even when characters follow it), and a blank line or a failed
  parse leaves the value unchanged. Go reads the line only up to the first
  non-space character after the token and leaves the rest for the next call; the
  model drops that rest. On "5a7", Go stores 5, consumes the "a" while looking for
  the end of the line, and its next Scanln reads 7; the model's next prompt reads the
  next line.
- The installMySQL map-iteration order is a parameter (`order`, any order of the
  three keys). Order independence is not claimed: Services.InstallOrderMatters shows
  the result can differ.
- GoStrings.ReplaceAll and GoStrings.Split take only non-empty patterns. Every call
  in the core uses a fixed non-empty pattern.
- Sites.DatabaseSettings: `getServiceDetails("mysql")` never returns an error, so the
  error return in launchSite after it cannot happen. A missing details map reads as
  "" for every field, as Go's nil-map lookup does.
- Sites.RestartAllSites: the two directory listings that stop and start take are
  modelled as one listing. Each `RunCompose` call's outcome may still differ
  between the two passes.
- Files.FindComposeFile: the errors of `os.Getwd` and `os.UserHomeDir` are ignored,
  as the code ignores them. The working directory is taken to be a clean absolute
  path.
- Update.SelfUpdate: the steps after the download are one outcome parameter. Those
  steps are the temporary file, copy, chmod, executable lookup and rename.
- Update.CurrentCliVersion: the package src/common holds two conflicting
  declarations of the constant, "0.5.8" in src/common/constants.go and "0.1.1" in
  src/common/vars.go, and the model takes the value of constants.go by choice.
  Update.TestTagHasUpdate and Update.VTagBeatsNumeric hold for either value, since
  both start with a digit (Update.TestTagHasUpdateVarsVersion states it for "0.1.1").
  src/common/vars_test.go expects yet other paths. These constant tables are not
  otherwise modelled.
- The stub commands and the test scaffolding are not modelled. The functions that
  the tests call but src/commands/sites.go lacks belong to another revision. Those
  are createNginxConfig, setupNginxProxy, createSiteLog, a 15-argument launchSite,
  and docker.GetComposeFile. In that revision the domain defaults to the hostname
  and sites get nginx configuration and logs. The model follows the code in
  src/commands/sites.go.
- The global start, stop and restart and the `install nginx-proxy` command of
  services.go are fixed sequences of external commands, not part of this model.

## Findings

| source | as written | input that shows it | evidently intended | confidence | as-written member | corrected member |
|---|---|---|---|---|---|---|
| src/utils/update.go:141 | the asset must have `filepath.Ext` equal to ".tar.gz", but Ext returns only the part from the last dot (".gz") | asset "ploy-linux-amd64.tar.gz" on linux/amd64, as in update_test.go | accept names that end in ".tar.gz" | not executed | Update.AssetURLAlwaysEmpty | Update.IntendedPicksSystemAsset |
| src/utils/update.go:59-61 | because getAssetURL is always "", SelfUpdate run as root always fails with "no suitable binary found for this system" | root, linux/amd64, release v1.0.1 with asset ploy-linux-amd64.tar.gz | download the matching asset | not executed | Update.SelfUpdateNeverDownloads | Update.IntendedSelfUpdateDownloads |
| src/utils/files.go:12-24 | the loop stops only at a compose file or at home; at "/" Dir("/") is "/" and the loop repeats forever | working directory /tmp, home /home/ploy, no docker-compose.yml anywhere | give up with "" after "/" has been searched | not executed | Files.OutsideHomeNeverReturns | Files.IntendedFindAgrees |
