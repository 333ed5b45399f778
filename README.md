# A verified model of six small parts of Pixie

This project models and proves properties of six small parts of the Pixie observability platform:

- **Agent registration** (`Registration`). The agent's registration handler as its unit test drives it:
  - a register request is sent after a random delay;
  - a timeout is armed once the request is out;
  - an acknowledgment cancels the timeout and hands the assigned session id (ASID) to a register or re-register hook, chosen by the handler's phase;
  - a timeout that fires first is a fatal fault.

  The fake message connector and the hooks are modelled too.
- **Redis command-table generator** (`RedisCmdsFormatGenerator`). The generator groups a text of argument lines into one list per Redis command, a new list starting at every line that is a command name. It then renders each list as a C++ initializer `{"NAME", {ARG, ...}},`.
- **License collector** (`FetchLicenses`, with `Strings` for Go's `strings` functions):
  - resolving Go module paths and git URLs to repository names and URLs, including the remapping of forks;
  - the three license fetchers (GitHub, pkg.go.dev and a manual table), chained per dependency;
  - de-duplication by name;
  - the split into dependencies with and without a license;
  - the fatal end when licenses are missing and there is no output for them.
- **Planner limit operator** (`LimitIr`, over `PlanIr`). `Init`, `CopyFromNodeImpl` and `ToProto`. `ToProto` writes the columns, the limit and the abortable sources into the operator message, or fails after writing the columns.
- **Planner GRPC source operator** (`GrpcSourceIr`). `ToProto` copies the relation's column types and names position by position. `CopyFromNodeImpl` changes nothing.
- **UI gauge thresholds** (`MetricThresholds`). The latency and CPU classifiers into low, medium and high.

The following are parameters of the model:

- Virtual time is an integer number of milliseconds.
- The random delay before a registration send is a per-call parameter.
- `tryPkgDevGo` and `remapRepos` are parameters.
- The GitHub API and the pkg.go.dev page are functions passed in.

State that the source changes in place is kept in classes:

- the handler, the fake connector and the test fixture;
- the `dependency` struct;
- the limit and GRPC source nodes and the operator message.

Their methods are proved against specification functions. The pure parts are functions and lemmas.

## Model

| member | source | states |
|---|---|---|
| MetricThresholds.LatencyLevel | src/ui/src/utils/metric-thresholds.ts:1-14 | low exactly below 150, med exactly on [150, 300), high exactly from 300 |
| MetricThresholds.CpuLevel | src/ui/src/utils/metric-thresholds.ts:16-27 | low exactly below 70, med exactly on [70, 80), high exactly from 80 |
| MetricThresholds.NeverNone | src/ui/src/utils/metric-thresholds.ts:4-27 | neither classifier returns 'none' |
| MetricThresholds.LatencyLevelMonotone | src/ui/src/utils/metric-thresholds.ts:6-14 | a larger latency never gives a lower level (low < med < high) |
| MetricThresholds.CpuLevelMonotone | src/ui/src/utils/metric-thresholds.ts:19-27 | a larger CPU value never gives a lower level |
| MetricThresholds.LatencyBoundaries | src/ui/src/utils/metric-thresholds.ts:1-14 | the latency level steps up exactly at the constants 150 and 300 |
| MetricThresholds.CpuBoundaries | src/ui/src/utils/metric-thresholds.ts:16-27 | the CPU level steps up exactly at the constants 70 and 80 |
| RedisCmdsFormatGenerator.SkipWhitespace | src/stirling/source_connectors/socket_tracer/protocols/redis/redis_cmds_format_generator.cc:26-32 | every kept piece is a non-blank piece of the split, and every non-blank piece is kept; order and repeats are stated by SkipWhitespaceAppend and SkipWhitespaceOne |
| RedisCmdsFormatGenerator.SkipWhitespaceAppend | src/stirling/source_connectors/socket_tracer/protocols/redis/redis_cmds_format_generator.cc:26-32 | skipping white space over two runs of pieces is skipping it over each and concatenating, so order and multiplicity of the kept pieces are those of the split |
| RedisCmdsFormatGenerator.SkipWhitespaceOne | src/stirling/source_connectors/socket_tracer/protocols/redis/redis_cmds_format_generator.cc:26-32 | a single piece is kept exactly when it is not blank |
| RedisCmdsFormatGenerator.Lines | src/stirling/source_connectors/socket_tracer/protocols/redis/redis_cmds_format_generator.cc:32 | no kept line is blank or holds a newline |
| RedisCmdsFormatGenerator.CommandSet | src/stirling/source_connectors/socket_tracer/protocols/redis/redis_cmds_format_generator.cc:26-27 | no command name is blank |
| RedisCmdsFormatGenerator.CommandSetIsNonBlankLines | src/stirling/source_connectors/socket_tracer/protocols/redis/redis_cmds_format_generator.cc:26-27 | a string is a command name iff it is a non-blank line of the command file |
| RedisCmdsFormatGenerator.ConsumePrefix | src/stirling/source_connectors/socket_tracer/protocols/redis/redis_cmds_format_generator.cc:38 | the prefix is removed once when present, otherwise the line is unchanged |
| RedisCmdsFormatGenerator.ConsumeLeavesSplitLine | src/stirling/source_connectors/socket_tracer/protocols/redis/redis_cmds_format_generator.cc:37-39 | a line without a newline passes through both calls unchanged |
| RedisCmdsFormatGenerator.GroupsFlattenAndShape | src/stirling/source_connectors/socket_tracer/protocols/redis/redis_cmds_format_generator.cc:34-49 | the groups concatenate to exactly the lines in order; each group is non-empty; only its first element can be a command name; every group but the first starts with one |
| RedisCmdsFormatGenerator.GroupCommands | src/stirling/source_connectors/socket_tracer/protocols/redis/redis_cmds_format_generator.cc:24-51 | returns OK; keeps `commands` as a prefix; the appended groups concatenate to the non-blank argument lines and are well grouped |
| RedisCmdsFormatGenerator.QuoteRoundTrip | src/stirling/source_connectors/socket_tracer/protocols/redis/redis_cmds_format_generator.cc:57-61 | quoting (`R"(arg)"` when the argument holds `"`, else `"arg"`) loses nothing: unquoting gives the argument back |
| RedisCmdsFormatGenerator.Quote | src/stirling/source_connectors/socket_tracer/protocols/redis/redis_cmds_format_generator.cc:57-61 | an argument holding `"` is wrapped in `R"(` and `)"`; any other is wrapped in one `"` on each side and holds no `"` in between |
| RedisCmdsFormatGenerator.Unquote | src/stirling/source_connectors/socket_tracer/protocols/redis/redis_cmds_format_generator.cc:57-61 | unquoting never lengthens the text |
| RedisCmdsFormatGenerator.QuoteAll | src/stirling/source_connectors/socket_tracer/protocols/redis/redis_cmds_format_generator.cc:54-62 | one quoted argument per argument, in order |
| RedisCmdsFormatGenerator.FormatCommand | src/stirling/source_connectors/socket_tracer/protocols/redis/redis_cmds_format_generator.cc:53-67 | the line starts with `{"NAME", {` and ends with `}},` |
| RedisCmdsFormatGenerator.FormatCommandArgs | src/stirling/source_connectors/socket_tracer/protocols/redis/redis_cmds_format_generator.cc:56-66 | between these sit the quoted arguments after the name, joined by ", " in order |
| RedisCmdsFormatGenerator.FormatCommandNoArgs | src/stirling/source_connectors/socket_tracer/protocols/redis/redis_cmds_format_generator.cc:64-66 | a command without arguments renders as `{"NAME", {}},` |
| Strings.Split | tools/licenses/fetch_licenses.go:114-119 | `strings.Split`: at least one piece; no piece holds the separator; joining gives the input back; more than one piece iff the separator occurs |
| Strings.Index | tools/licenses/fetch_licenses.go:113 | -1 iff the pattern does not occur; otherwise the first occurrence |
| Strings.ReplaceFirst | tools/licenses/fetch_licenses.go:108 | `strings.Replace(s, old, new, 1)`: when the pattern occurs, the result is the text before its first occurrence, the replacement, and the rest after it |
| Strings.TrimSuffix | tools/licenses/fetch_licenses.go:110 | with the suffix present the result followed by the suffix is the input; otherwise the input is unchanged; the redis generator uses it for `absl::ConsumeSuffix` |
| Strings.SplitHead | tools/licenses/fetch_licenses.go:114-115 | the first piece of a split is a prefix of the input, and either is all of it or is followed by the separator |
| Strings.Join | tools/licenses/fetch_licenses.go:125 | no parts give ""; one part gives that part; with more, the first part comes first, followed by the separator |
| FetchLicenses.NormalizePath | tools/licenses/fetch_licenses.go:108-116 | the normalised path no longer contains "://" |
| FetchLicenses.NormalizePathPiece | tools/licenses/fetch_licenses.go:108-116 | after the SSH rewrite and trimming ".git", a path without "://" is kept as is; otherwise the kept path is what follows the first "://" up to the next one, and no "://" occurs before that first one |
| FetchLicenses.GetNameAndUrl | tools/licenses/fetch_licenses.go:93-132 | a package not mentioning "github" is its own name; the URL is empty, the pkg.go.dev URL of the name or the GitHub URL of the name |
| FetchLicenses.NonGithubPackage | tools/licenses/fetch_licenses.go:94-104 | a path without "github" gives (pkg, "https://pkg.go.dev/" + pkg) with the flag and (pkg, "") without |
| FetchLicenses.UnderspecifiedGithubPackage | tools/licenses/fetch_licenses.go:119-123 | fewer than three "/"-segments gives the normalised path and no URL |
| FetchLicenses.GithubPackage | tools/licenses/fetch_licenses.go:125-131 | otherwise the name is segments 1 and 2 joined by "/", remapped if the table holds it, and the URL is "https://github.com/" + name |
| FetchLicenses.GithubUrlOnlyFromGithubPath | tools/licenses/fetch_licenses.go:93-132 | a GitHub URL comes only from a "github" path with at least three segments |
| FetchLicenses.GithubNameIsOwnerRepo | tools/licenses/fetch_licenses.go:134-142 | with remap targets of the form owner/repo, every dependency with a GitHub URL has a name of two segments, so the `len(parts) < 2` guard never turns it away |
| FetchLicenses.RemapTargetOwnerRepoFirst | tools/licenses/fetch_licenses.go:31-45 | the first seven remap targets have the form owner/repo |
| FetchLicenses.RemapTargetOwnerRepoRest | tools/licenses/fetch_licenses.go:31-45 | the other six remap targets have the form owner/repo |
| FetchLicenses.RemapReposTargetsOwnerRepo | tools/licenses/fetch_licenses.go:31-45 | every target of `remapRepos` has the form owner/repo |
| FetchLicenses.RemapReposGithubNamesSplit | tools/licenses/fetch_licenses.go:125-142 | with the real remap table, every dependency given a GitHub URL has a name that splits into exactly two segments |
| FetchLicenses.NormalizeSpdx | tools/licenses/fetch_licenses.go:147-152 | "NOASSERTION" becomes ""; every other id is kept |
| FetchLicenses.GithubFillStoresNormalizedLicense | tools/licenses/fetch_licenses.go:134-160 | the GitHub fetcher changes only the two license fields and never stores "NOASSERTION" |
| FetchLicenses.GithubFill | tools/licenses/fetch_licenses.go:134-160 | a dependency off GitHub is untouched; name, URL and package never change |
| FetchLicenses.TryFetchGithubLicense | tools/licenses/fetch_licenses.go:134-160 | the dependency becomes `GithubFill` of what it was: untouched off GitHub, on an underspecified name or on an API error; otherwise the normalised id and the decoded text, or the raw content when it does not decode |
| FetchLicenses.ScanSectionsKeepsNamed | tools/licenses/fetch_licenses.go:185-191 | once an SPDX id is set no later section changes the dependency |
| FetchLicenses.ScanSectionsPicksFirstNamed | tools/licenses/fetch_licenses.go:185-191 | from an empty id the page's first section with a non-empty heading wins, or the last section when all headings are empty |
| FetchLicenses.TryFetchPkgGoDevLicense | tools/licenses/fetch_licenses.go:162-192 | the dependency becomes `PkgGoDevFill` of what it was: untouched without the flag, with a license already, or without a page; otherwise the sections are scanned in order |
| FetchLicenses.PkgGoDevFill | tools/licenses/fetch_licenses.go:162-192 | without the flag or with a license already the dependency is untouched; name, URL and package never change |
| FetchLicenses.ManualFillRule | tools/licenses/fetch_licenses.go:194-207 | unchanged when an id is set or the name is missing; otherwise both license fields come from the entry of that name; name, URL and package never change |
| FetchLicenses.ManualFill | tools/licenses/fetch_licenses.go:194-207 | a dependency with a license is untouched; a changed one has a manual entry and takes that entry's license id |
| FetchLicenses.ManualFillIdempotent | tools/licenses/fetch_licenses.go:194-207 | filling twice is filling once |
| FetchLicenses.TryFetchJsonManualLicense | tools/licenses/fetch_licenses.go:194-207 | the dependency becomes `ManualFill` of what it was against the table's records |
| FetchLicenses.FetchedKeepsIdentity | tools/licenses/fetch_licenses.go:264-268 | the three fetchers change only the license fields |
| FetchLicenses.Fetched | tools/licenses/fetch_licenses.go:264-268 | a licensed dependency off GitHub comes out of the three fetchers unchanged |
| FetchLicenses.FetchOne | tools/licenses/fetch_licenses.go:264-268 | one worker turn is the three fetchers applied in order |
| FetchLicenses.FetchAll | tools/licenses/fetch_licenses.go:257-277 | every dependency has gone through the three fetchers once against the unchanged manual table |
| FetchLicenses.DedupKeepsNames | tools/licenses/fetch_licenses.go:236-246 | de-duplication keeps every name |
| FetchLicenses.DedupNamesDistinct | tools/licenses/fetch_licenses.go:236-246 | no name is kept twice |
| FetchLicenses.DedupKeepsFirst | tools/licenses/fetch_licenses.go:236-246 | each kept record is the first record of its name |
| FetchLicenses.DedupKeepsOrder | tools/licenses/fetch_licenses.go:236-246 | kept records are ordered by the first occurrence of their names |
| FetchLicenses.Dedup | tools/licenses/fetch_licenses.go:236-246 | never more records than given, and only records that were given |
| FetchLicenses.CollectLine | tools/licenses/fetch_licenses.go:240-245 | one loop turn appends a new dependency exactly when the name is unseen, then marks it seen |
| FetchLicenses.CollectDependencies | tools/licenses/fetch_licenses.go:236-246 | the dependencies hold exactly the de-duplicated resolved records, each in a fresh object |
| FetchLicenses.Licensed | tools/licenses/fetch_licenses.go:279-286 | every found record has a non-empty SPDX id |
| FetchLicenses.Unlicensed | tools/licenses/fetch_licenses.go:279-286 | every missing record has an empty SPDX id |
| FetchLicenses.LicensedPartition | tools/licenses/fetch_licenses.go:279-286 | found and missing together hold every record exactly once |
| FetchLicenses.Partition | tools/licenses/fetch_licenses.go:279-286 | found and missing are the licensed and the unlicensed dependencies, in order |
| FetchLicenses.PartitionAppend | tools/licenses/fetch_licenses.go:279-286 | the licensed and the unlicensed lists of two runs of records are those of each run, concatenated in order |
| FetchLicenses.ManualTable | tools/licenses/fetch_licenses.go:70-73 | the intended table has exactly the names of the entries as keys |
| FetchLicenses.ManualTableLastWins | tools/licenses/fetch_licenses.go:70-73 | in the intended table an entry shadowed by no later entry is found under its name |
| FetchLicenses.ReadManualAsWritten | tools/licenses/fetch_licenses.go:70-73 | as written, every name maps to the one loop variable, which ends holding the last entry |
| FetchLicenses.AliasedTable | tools/licenses/fetch_licenses.go:70-73 | the as-written table has exactly the names of the entries as keys |
| FetchLicenses.AliasedFillTakesLastEntry | tools/licenses/fetch_licenses.go:70-73 | with that table, every unlicensed dependency with a manual entry gets the license of the file's last entry |
| FetchLicenses.AliasingLosesManualLicenses | tools/licenses/fetch_licenses.go:70-73 | with entries "a" (MIT) and "b" (Apache-2.0), the as-written table gives "a" Apache-2.0 and the intended one MIT |
| FetchLicenses.AddManualEntry | tools/licenses/fetch_licenses.go:71-72 | the corrected loop turn: the entry is stored under its name in a fresh object, and the other names keep their entries |
| FetchLicenses.ReadManual | tools/licenses/fetch_licenses.go:70-73 | the corrected reader: each name maps to a fresh object holding the last entry of that name |
| FetchLicenses.ResolveLicenses | tools/licenses/fetch_licenses.go:209-300 | found and missing are the licensed and unlicensed records of the fetched de-duplicated dependencies; missing licenses without a missing output end fatally with their count |
| PlanIr.ColumnIndex | src/carnot/planner/ir/limit_ir.cc:49 | the position of the first column of that name, or the number of columns when there is none |
| PlanIr.ColumnIndexMissing | src/carnot/planner/ir/limit_ir.cc:49 | the index is the number of columns iff no column has the name |
| LimitIr.LimitColumns | src/carnot/planner/ir/limit_ir.cc:43-50 | one column per column of the node, in order, each naming the parent's id and the index of the same name in the parent's relation |
| LimitIr.LimitColumnsResolve | src/carnot/planner/ir/limit_ir.cc:43-50 | when the parent has every column, each written index points at the parent's column of the same name |
| LimitIr.AddColumns | src/carnot/planner/ir/limit_ir.cc:46-50 | the column loop appends exactly `LimitColumns` of the node's names and changes nothing else |
| LimitIr.AddAbortableSrcs | src/carnot/planner/ir/limit_ir.cc:56-58 | the loop appends the abortable sources in order and changes nothing else |
| LimitIr.LimitIR.AddParent | src/carnot/planner/ir/limit_ir.cc:27 | the parent is appended and the status of linking the edge is returned; nothing else changes |
| LimitIr.LimitIR.SetLimitValue | src/carnot/planner/ir/limit_ir.cc:28 | the value is stored and marked set; nothing else changes |
| LimitIr.LimitIR.Init | src/carnot/planner/ir/limit_ir.cc:26-31 | adds the parent, then stores the limit and `pem_only`; a failure of AddParent is returned with the limit and `pem_only` untouched |
| LimitIr.LimitIR.ToProto | src/carnot/planner/ir/limit_ir.cc:38-60 | sets LIMIT_OPERATOR and appends the columns; without a limit value it fails with "Limit value not set properly." and writes no limit; otherwise it writes the limit and appends the abortable sources in order |
| LimitIr.LimitIR.CopyFromNodeImpl | src/carnot/planner/ir/limit_ir.cc:62-68 | copies exactly the limit value, its set flag and `pem_only`, and returns OK |
| GrpcSourceIr.GRPCSourceIR.ToProto | src/carnot/planner/ir/grpc_source_ir.cc:29-40 | sets GRPC_SOURCE_OPERATOR and appends the relation's column types and names in order; returns OK |
| GrpcSourceIr.GRPCSourceIR.CopyFromNodeImpl | src/carnot/planner/ir/grpc_source_ir.cc:25-27 | changes nothing and returns OK |
| Registration.InfoFromRequest | src/vizier/services/agent/manager/registration_test.cc:108-117 | a controller reads an agent record exactly out of a register request |
| Registration.InfoMessage | src/vizier/services/agent/manager/registration_test.cc:109-117 | the request's info message gives back the agent's id, address, host name, pod name and host IP |
| Registration.RegistrationRequest | src/vizier/services/agent/manager/registration_test.cc:109-150 | the message is a registration request carrying the info message; a re-registration carries the ASID, a first registration 0 |
| Registration.RequestMirrorsInfo | src/vizier/services/agent/manager/registration_test.cc:108-117 | a request carries back every field of the agent record (address as ip_address, host fields, capabilities); its ASID is the record's on re-registration and 0 otherwise |
| Registration.FakeNatsConnector.Publish | src/vizier/services/agent/manager/registration_test.cc:38-41 | appends the message in call order and returns OK |
| Registration.Fixture.constructor | src/vizier/services/agent/manager/registration_test.cc:59-95 | the fixture starts with the agent record and all counters and ASIDs at 0 |
| Registration.Fixture.RegisterHook | src/vizier/services/agent/manager/registration_test.cc:67-72 | counts the call, stores the ASID in the agent record and in `register_asid_` |
| Registration.Fixture.ReregisterHook | src/vizier/services/agent/manager/registration_test.cc:74-78 | counts the call and stores the ASID in `reregister_asid_`; the record is kept |
| Registration.RegistrationHandler.constructor | src/vizier/services/agent/manager/registration_test.cc:80-81 | an idle handler at time 0 with no timer and no fault |
| Registration.RegistrationHandler.RegisterAgent | src/vizier/services/agent/manager/registration_test.cc:100-105 | schedules the send after the delay, cancels any armed timeout, and awaits the register acknowledgment |
| Registration.RegistrationHandler.ReregisterAgent | src/vizier/services/agent/manager/registration_test.cc:142-145 | the same, awaiting the re-register acknowledgment |
| Registration.RegistrationHandler.HandleMessage | src/vizier/services/agent/manager/registration_test.cc:119-157 | a response with the timeout armed cancels it and calls the hook of the phase once with the response's ASID; anything else changes nothing; always OK |
| Registration.RegistrationHandler.Advance | src/vizier/services/agent/manager/registration_test.cc:160-171 | a due send publishes the request of the phase from the current record and arms the timeout; a due timeout is the fault "Timeout waiting for registration ack"; nothing else fires; at most one timer is ever outstanding |
| Registration.RegisterAgentTest | src/vizier/services/agent/manager/registration_test.cc:98-126 | one request by 60 s that mirrors the record with no ASID; the acknowledgment with 10 returns OK and calls the register hook once with 10 |
| Registration.RegisterAndReregisterAgentTest | src/vizier/services/agent/manager/registration_test.cc:128-158 | a second request carries the stored ASID 10; the cancelled first timeout never fires; each hook is called once with 10 |
| Registration.RegisterAgentTimeoutTest | src/vizier/services/agent/manager/registration_test.cc:160-172 | one request by 60 s, and an unanswered request is the fatal timeout by 120 s |

## Left out

- The registration handler's implementation file is not part of this model. The handler is modelled from its test:
  - the random delay is a per-call parameter;
  - the timeout is a constructor constant greater than 0;
  - the tests add only the bounds they need as requires (a delay of at most 60 s, and a timeout of at most 60 s in the timeout test).
- Registration.RegistrationHandler.HandleMessage: an acknowledgment is acted on only while the timeout is armed. A response that arrives before the request was sent, or with no request outstanding, is ignored with OK. The test does not pin that case.
- Registration.RegistrationHandler.Advance: the timeout is armed when the request goes out, so its deadline is the send time plus the timeout. The handler's implementation is not part of this model, so this is a modelling choice. RegisterAgentTimeoutTest's requires of a timeout of at most 60 s rests on it.
- The event dispatcher, libuv, the NATS transport, protobuf encoding and `sole::uuid4` are left out. Time is a virtual integer in milliseconds, messages are datatypes and the agent id is a string.
- Overflow of the test's `int32_t` hook counters is not modelled.
- The GitHub API call and base64 decoding are left out. The API is a function from owner and repository to an optional license; the decoded content is an optional field of that license.
- The pkg.go.dev HTTP request and HTML scraping are left out. The page is a function from package to an optional list of license sections, each a heading and a text.
- Left out entirely:
  - `readData`'s file opening and JSON decoding (the decoded entries are an input);
  - the modules file scanner (its lines are an input);
  - `writeData`;
  - flag parsing and the fatal checks on missing flags;
  - I/O errors.
- The worker pool of twelve goroutines, its channel and its WaitGroup are modelled as a sequential loop. Each worker touches only its own dependency and reads the manual table, so any interleaving gives the same records.
- FetchLicenses.Partition: states the records of the found and missing lists, not that they are the very objects of `deps`.
- FetchLicenses.ResolveLicenses: uses the corrected manual table (see Findings). The as-written table is kept in ReadManualAsWritten and AliasedTable.
- FetchLicenses.GithubNameIsOwnerRepo: takes as a requires that every remap target has the form owner/repo. RemapReposGithubNamesSplit discharges it for the thirteen entries of `remapRepos`.
- These files are not part of this model:
  - `operator_ir.cc`: `AddParent`'s graph edge is an input status;
  - `relation.cc`: `GetColumnIndex` is the position of the first column of that name;
  - `limit_ir.h`: `SetLimitValue` sets the value and marks it set.
- LimitIr.LimitIR.AddParent: the parent is recorded first and the edge's status is returned after, so a failed edge still leaves the parent in `parents`. `operator_ir.cc` is not part of this model, so this order is an assumption about `OperatorIR::AddParent`, not read from the modelled files.
- `CreateIRNodeError`'s prefix with the node's context is not modelled; the error carries only the message.
- Parents are values (id and relation), not node objects.
- LimitIr.LimitIR.ToProto: the `DCHECK` that there is exactly one parent is a requires.
- `LimitIR::RequiredInputColumns` is left out, because it is outside the modelled operations.
- TypeScript numbers are reals: NaN and infinities are not modelled.
- The redis generator's file reading, `CHECK`s, logging of the command set and printing to stdout are left out. The two file contents are inputs, and the printed lines are `FormatCommand` of each group.
- RedisCmdsFormatGenerator.IsAsciiSpace: the six characters of `absl::ascii_isspace` (space, tab, newline, vertical tab, form feed, carriage return). Other Unicode white space is out of scope.

## Findings

| source | as written | input that shows it | evidently intended | confidence | as-written member | corrected member |
|---|---|---|---|---|---|---|
| tools/licenses/fetch_licenses.go:70-73 | `licenses[dep.Name] = &dep` stores the address of the range variable, which (before Go 1.22) is one variable for the whole loop, so every name maps to the last decoded entry | two manual entries "a" (MIT) and "b" (Apache-2.0): a dependency "a" with no license gets Apache-2.0 | each name maps to its own entry | not executed | FetchLicenses.ReadManualAsWritten | FetchLicenses.ReadManual |
