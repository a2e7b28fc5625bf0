# goresttest core, modelled in Dafny

goresttest runs declarative REST test suites. A suite is a list of HTTP tests. Each test is
built into a request (base URL joined with the path, `${name}` placeholders interpolated,
method defaulted, body or body file). The response is then checked by assertions of seven
kinds and mined for variables by extraction rules. A scheduler runs the tests in declaration
order, or in a "parallel" mode. A test runs only when the tests it depends on have stored
successful results, and it sees their extracted variables. A benchmark executor repeats one
request over several workers and tallies the attempts. A legacy runner (`internal/runner`)
checks status-code prefixes and JSON-path equalities.

The project models that engine, one module per source file:

| module | source | form |
|---|---|---|
| `Interpolation` | parser.go `InterpolateVariables` | method over the map's visiting order, with the template theory that explains it |
| `Parser` | parser.go `MaxWorkers` default | function and method |
| `JsonPath` | the segment walk shared by assertions.go and extractor.go | functions, plus the walk as Go executes it (with its panics) |
| `Assertions` | assertions.go | pure checks as functions; `RunAssertions` and `getJSONPathValue` as loops |
| `Extractor` | extractor.go | dispatch as functions; `ExtractVariables` and `processJSONPath` as loops |
| `Client` | client.go | `HttpClient` class whose `timeout` field a per-test timeout overwrites |
| `Executor` | executor.go | `TestExecutor` class holding `globalVariables` and the `testResults` store |
| `Benchmark` | benchmark.go | `BenchmarkExecutor` class; share split, workers and `collectResults` as loops |
| `Runner` | internal/runner/runner.go | body reader class, validation loop, environment split |

There are also support modules:
- `Types`: the records of types.go and the structured error messages.
- `Values`: the closed type of decoded YAML/JSON values and Go's `%v`.
- `GoStrings` and `GoStrconv`: the parts of Go's `strings` and `strconv` that the engine uses.
- `MapOrder`: the orders in which Go's `range` may visit a map.
- `Sorting`: `sort.Slice`.
- `Wrappers`: Option and Result.

The outside world is passed in as values:
- The transport, `os.ReadFile`, `http.NewRequest`'s error and the elapsed time are the fields of `Client.Io`.
- The regexp, goquery and encoding/json libraries, and float formatting, are the fields of `Types.Libraries`.
- The runner's environment, `html/template` and `gjson.Get` are the fields of `Runner.RunnerIo`.

Go's unspecified map order is a parameter `order` with `MapOrder.Enumerates(order, m)`.
Where a deterministic function needs one order (the executor's specification), it uses
ascending key order. `Benchmark.AggregateOrderFree` shows that arrival order does not change
the benchmark aggregate. `Interpolation.InterpolationOrderIrrelevant` shows that the key order
does not change interpolation for texts with no stray `$`. `Interpolation.InterpolationOrderMatters`
shows that it can change other texts, so the members that interpolate in ascending order are
listed under "Left out".

## Model

| member | source | states |
|---|---|---|
| Interpolation.Placeholder | parser.go:55 | the placeholder is `${`, the key, `}` |
| Interpolation.InterpolateVariables | parser.go:52-59 | the result is every key's placeholder replaced by its value, keys taken in the order `range` visits them |
| Interpolation.InterpolateEmptyMap | parser.go:53-58 | an empty map returns the text unchanged |
| Interpolation.InterpolateNoMarker | parser.go:54-57 | a text without `${` is returned unchanged for every map and every order |
| Interpolation.ReplaceAllAbsent | parser.go:56 | replacing a pattern the text does not contain changes nothing |
| Interpolation.ReplaceAllRender | parser.go:56 | on a well-formed text, ReplaceAll of one placeholder fills exactly the holes with that name |
| Interpolation.InterpolateTemplate | parser.go:54-57 | on a well-formed text with plain values, interpolation fills every known placeholder and keeps every unknown one, in any order |
| Interpolation.InterpolationOrderIrrelevant | parser.go:54-57 | for such texts, any two visiting orders give the same result |
| Interpolation.InterpolationOrderMatters | parser.go:54-57 | a value free of `${` can still make the order matter: `$${a}` with a=`{b}`, b=`X` gives `X` or `${b}` |
| Interpolation.ReplaceAllSplit | parser.go:56 | when no occurrence of the pattern crosses a seam, ReplaceAll works on each side separately |
| Interpolation.ReplaceAllKeepsHole | parser.go:56 | replacing the placeholder of one plain name never destroys an occurrence of another's |
| Interpolation.UnknownPlaceholderKept | parser.go:54-57 | for any text, any values and any order, a placeholder whose key has no value stays in the output, as long as the variable names hold no `$` or `}` |
| Interpolation.BraceInNameSwallowsPlaceholder | parser.go:54-57 | a variable name holding `}` can swallow another placeholder: `${a}b}` with `a}b`=`X` becomes `X` |
| Interpolation.KnownPlaceholdersReplaced | parser.go:56 | on a text with no stray `$` and values without `$`, no placeholder of a known key is left |
| Interpolation.StrayDollarRebuildsPlaceholder | parser.go:54-57 | a stray `$` can rebuild a replaced placeholder: `$${k}{k}` with k empty becomes `${k}` |
| Interpolation.PlaceholderAlone | parser.go:54-57 | a text that is one placeholder becomes its value, or stays as it is when the key is unknown |
| Interpolation.PlaceholderBetween | parser.go:54-57 | one placeholder between `$`-free texts: only the placeholder is replaced |
| Interpolation.PlaceholderFirst | parser.go:54-57 | a placeholder followed by plain text: the placeholder is replaced and the text kept |
| Interpolation.TwoKeys | parser.go:54-57 | two keys are replaced one after the other, in visiting order |
| Interpolation.UserIdExample | parser.go:56 | `${user_id}` with user_id=123 becomes `123` |
| Parser.DefaultWorkers | parser.go:44-46 | a non-positive `MaxWorkers` becomes 10; a positive one is kept |
| Parser.ParseTestSuiteFromString | parser.go:38-49 | a decode error comes back wrapped as `failed to parse YAML: ...`; otherwise only `maxWorkers` changes, by the default rule |
| JsonPath.Lookup | assertions.go:305 | a missing object key yields null |
| JsonPath.Container | assertions.go:284-290 | `key[...]` on an empty key indexes the current value; on a non-object it is "expected object" |
| JsonPath.WalkFirst | assertions.go:271-307 | an empty segment is skipped; a failing segment stops the walk with its error; otherwise the walk goes on from the new value |
| JsonPath.WalkAppend | assertions.go:271-307 | walking `p + q` is walking `p` and then `q` from where `p` ended |
| JsonPath.KeyStep | assertions.go:300-305 | a plain segment on an object looks the key up, null when it is missing |
| JsonPath.KeyStepNeedsObject | assertions.go:301-304 | a plain segment on a non-object is "expected object at path" |
| JsonPath.IndexedStep | assertions.go:276-299 | `key[i]` looks up `key`, then needs an array and `i < len`, and yields element `i` |
| JsonPath.IndexedStepAt | assertions.go:276-299 | any segment with a decimal index between its brackets: container, array check, bounds `0 <= index < len`, element |
| JsonPath.BadIndexStep | assertions.go:279-282 | a non-numeric index is "invalid array index" naming the index text |
| JsonPath.EmptyPathIsDocument | assertions.go:268-274 | the path "" and the path `$.` yield the whole document |
| JsonPath.PlainKeyResolves | assertions.go:268-305 | a one-key path looks the key up in the document |
| JsonPath.MissingKeyIsNull | assertions.go:268-305 | `$.a` on an object without `a` is null, not an error |
| JsonPath.StepAgrees | assertions.go:276-306 | wherever Go's segment step does not panic, it agrees with the corrected step |
| JsonPath.NegativeIndexPanics | assertions.go:296-299 | `key[-n]` on an array panics in Go, and the corrected step reports index -n out of bounds |
| JsonPath.NegativeIndexStep | assertions.go:296-299 | any negative decimal index on an array panics in Go and is "out of bounds" in the corrected step |
| JsonPath.ClosingBracketFirstPanics | assertions.go:277-278 | the segment `a]b[0` panics in Go, and the corrected step reports it as an invalid index |
| JsonPath.ClosingBracketFirstStep | assertions.go:277-278 | any segment whose first `]` precedes its first `[` panics in Go and is an invalid index in the corrected step |
| Assertions.RunAssertions | assertions.go:20-30 | the errors are exactly those of the failing assertions, in assertion order |
| Assertions.FailuresOnePerFailing | assertions.go:20-30 | errors of a concatenation concatenate; no errors iff every assertion passes; when all fail, each one's error in order; at most one per assertion |
| Assertions.RunSingleAssertion | assertions.go:32-53 | the assertion is interpolated first; each of the seven kinds runs its own check on it (xpath and css_selector both the HTML check); an unknown kind is the error "unknown assertion type" naming it |
| Assertions.ReadExpectedNumber | assertions.go:56-67 | an int is taken as is and a string through Atoi; a malformed string and any other type are told apart |
| Assertions.AssertStatusCode | assertions.go:55-96 | int or decimal-string expected, else the matching error; the default is equals; the four operator pairs test =, ≠, >, <; any other operator is an error |
| Assertions.StatusCodeTextIsInt | assertions.go:56-67 | an expected status written as a decimal string is checked exactly like the int |
| Assertions.NormalizeTypes | assertions.go:345-376 | a mixed int/float pair becomes two floats of the same numbers; every other pair is unchanged |
| Assertions.CompareValues | assertions.go:312-341 | equals and not_equals compare the normalised values; contains and not_contains test substring on the `%v` texts; any other operator is an error |
| Assertions.CompareComplementary | assertions.go:315-335 | equals/not_equals and contains/not_contains give opposite verdicts for every pair |
| Assertions.MixedNumbersEqual | assertions.go:353-358 | a float and an int are equal exactly when they denote the same number |
| Assertions.IntIsNotText | assertions.go:345-376 | an int never equals its decimal text |
| Assertions.GetJSONPathValue | assertions.go:267-310 | the loop reaches what the path resolves to, or the first segment's error |
| Assertions.TakeStep | assertions.go:276-306 | the loop body computes one segment step |
| Assertions.AssertJsonPath | assertions.go:98-115 | an undecodable body and an unresolvable path are errors; otherwise the located value is compared with the operator, equals by default, so every operator rule of CompareValues applies |
| Assertions.AssertHtmlSelector | assertions.go:117-144 | a selector error is an error; otherwise the selected texts (nil, one string or a list) are compared with the operator, equals by default; equals passes iff they equal the expected value |
| Assertions.Texts | assertions.go:126-136 | no element is nil, one is its text, several are the list |
| Assertions.AssertHeader | assertions.go:146-165 | an absent or empty header is an error; one value compares as a string; several compare as a list |
| Assertions.SeveralHeaderValuesAreAList | assertions.go:152-157 | a header with two values fails `equals` against the first of them |
| Assertions.AssertBodyContains | assertions.go:167-192 | a non-string expected is an error; the default is contains; contains and not_contains test the substring; other operators are errors |
| Assertions.BodyContainsOpposite | assertions.go:173-186 | contains and not_contains are opposite on the same body; the empty operator is contains |
| Assertions.AssertRegex | assertions.go:194-224 | a non-string or invalid pattern is an error; the default is matches; matches and not_matches follow the matcher; other operators are errors |
| Assertions.RegexVerdicts | assertions.go:200-218 | an invalid pattern fails whatever the body and operator; for a valid one, matches and not_matches are complementary |
| Assertions.Milliseconds | assertions.go:240 | the duration is truncated to whole milliseconds |
| Assertions.AssertResponseTime | assertions.go:226-265 | int or decimal-string expected; the default is less_than; <, >, = are strict on whole milliseconds; other operators are errors |
| Assertions.ResponseTimeInNanoseconds | assertions.go:240-259 | the same verdicts stated on nanoseconds: below `expected` ms, from `expected+1` ms, within that millisecond |
| Assertions.Retype | assertions.go:408-419 | an int if Atoi accepts it, else a float if ParseFloat does, else a bool if ParseBool does, else the string |
| Assertions.RetypeOrder | assertions.go:408-419 | "123" and "1" become ints, "true" a bool, "active" stays a string |
| Assertions.InterpolateString | assertions.go:402-422 | a string not wrapped in `${`…`}` is only interpolated; an unchanged one stays as it was |
| Assertions.InterpolateExpectedValue | assertions.go:396-436 | nil variables and int, float and bool values pass through; strings are interpolated; an unchanged string stays |
| Assertions.InterpolateAssertion | assertions.go:379-393 | kind and operator are kept; nil variables return the assertion untouched; otherwise the path is interpolated and the expected value goes through InterpolateExpectedValue |
| Assertions.WrappedRetyped | assertions.go:407-419 | a wrapped string that interpolation changes is retyped |
| Assertions.PlaceholderRetyped | assertions.go:407-419 | an expected value that is exactly a known placeholder takes the type of the variable's text |
| Assertions.UnknownPlaceholderUntyped | assertions.go:407-422 | an expected value that is an unknown placeholder stays that string |
| Assertions.PlaceholderMatchesJsonNumber | assertions.go:98-115 | `${id}` with id=123 against the JSON number 123 passes: retyped to an int, then compared as numbers |
| Extractor.ProcessJSONPath | extractor.go:140-182 | the loop reaches what walking the segments reaches |
| Extractor.GetJSONPathValue | extractor.go:119-138 | the extractor's path leads where its own splitting leads, and that is where the assertion engine's walk leads |
| Extractor.ExtractorWalkIsResolve | extractor.go:119-138 | for every path, cutting a `[` path at its first dot, or returning the document for an empty path, equals the engine's walk |
| Extractor.ExtractFromJson | extractor.go:65-77 | an undecodable body and an unresolvable path are errors; otherwise exactly the `%v` text of the value the assertion engine's walk reaches, and a whole number reads back as that int |
| Extractor.WholeNumberText | extractor.go:76 | a whole JSON number below a million becomes decimal text that Atoi reads back as the number |
| Extractor.ExtractFromHeader | extractor.go:79-85 | the first value; an absent or empty header is an error |
| Extractor.ExtractFromRegex | extractor.go:87-103 | an invalid pattern or no match is an error; otherwise group 1 when there are groups, else the whole match |
| Extractor.ExtractFromCss | extractor.go:105-117 | the first element's trimmed text; no element is an error |
| Extractor.ExtractValue | extractor.go:38-63 | an expression without `:` is an error; an unknown type is an error naming it |
| Extractor.ExpressionCutAtFirstColon | extractor.go:39-55 | the argument is everything after the first `:`, colons included, for each extractor type |
| Extractor.StatusExtraction | extractor.go:56-57 | `status:` yields the decimal status code, which reads back as the same number |
| Extractor.StartingVariables | extractor.go:23-25 | a nil variables map starts as an empty one |
| Extractor.ExtractVariables | extractor.go:22-36 | the result's variables are what running the rules in visiting order wrote, with the first failure |
| Extractor.RunWrites | extractor.go:27-33 | a run without failure writes one entry per rule with its extracted value and keeps every other entry |
| Extractor.RunStopsAtFailure | extractor.go:27-31 | a failing run stops at some rule j: the rules before it succeeded and were written, and the error names rule j |
| Extractor.ExtractionSucceeds | extractor.go:22-35 | on success the variables are the old ones plus exactly one entry per rule, holding what it extracts |
| Client.BuildURL | client.go:123-136 | a path starting with `http://` or `https://` is returned unchanged |
| Client.BuildURLSingleSlash | client.go:128-135 | base and path are joined with exactly one `/`, whether or not either has its own |
| Client.BuildURLTrimsOneSlash | client.go:128 | only one trailing `/` of the base is removed |
| Client.BuildURLEmptyBase | client.go:131-133 | with an empty base, the path without its leading `/` |
| Client.RequestMethod | client.go:36-39 | the method is upper-cased, letter by letter for ASCII letters; an empty one is GET |
| Client.RequestBody | client.go:41-65 | body and body_file together are an error; an inline body is interpolated; a body file's path is interpolated before reading and its contents after |
| Client.ReadBody | client.go:50-65 | the body step computes RequestBody |
| Client.RequestHeaders | client.go:76-79 | the same header names, each value interpolated |
| Client.SetHeaders | client.go:76-79 | setting the headers in visiting order yields RequestHeaders |
| Client.EffectiveTimeout | client.go:81-83 | a positive per-test timeout replaces the client's; otherwise the client's stays |
| Client.PrepareRequest | client.go:33-83 | the steps before the send build the planned request or report why none is built |
| Client.SendRequest | client.go:85-120 | the send and body read give the record, the error and the timeout of the exchange |
| Client.HttpClient.constructor | client.go:20-27 | a new client has the base URL and a 30-second timeout |
| Client.HttpClient.ExecuteRequest | client.go:30-121 | result, error and the client's new timeout are those of RequestOutcome |
| Client.RequestOutcomeOfPlan | client.go:30-121 | a planned request is sent; otherwise the failure record, with the timeout kept |
| Client.JoinBeforeInterpolation | client.go:33-34 | the URL is joined before interpolation, so `${api}/users` is never taken as absolute |
| Client.BodyFilePathInterpolated | client.go:53-64 | a body file `${dir}/name` is read from the directory the variable holds |
| Client.BothBodiesRejected | client.go:42-48 | body and body_file: a failed record with the test's name and the error; nothing sent; the timeout kept |
| Client.TimeoutAfterCall | client.go:81-85 | after a call, the client's timeout is the one the request was sent with, or the old one if nothing was sent |
| Client.TimeoutPersists | client.go:81-83 | a per-test timeout stays in force for the next test without its own |
| Client.OutcomeRecord | client.go:110-118 | nil error iff success; a success has the test's name, no error and an empty variables map; a failure has no variables map |
| Executor.SuiteVariables | executor.go:29-32 | nil suite variables become an empty map |
| Executor.TestExecutor.ExecuteTestSuite | executor.go:28-39 | the globals are installed; `parallel` selects the parallel run, otherwise the sequential one |
| Executor.TestExecutor.constructor | executor.go:18-26 | a fresh client for the base URL, no globals, no stored results |
| Executor.TestExecutor.CanExecuteTest | executor.go:177-187 | true iff every dependency has a stored, successful result |
| Executor.TestExecutor.MergeVariables | executor.go:138-150 | the globals, then each dependency in order laid over them |
| Executor.TestExecutor.OverlayDependency | executor.go:145-149 | a dependency with a stored result and variables overwrites; otherwise nothing changes |
| Executor.CopyInto | executor.go:140-142 | copying a map entry by entry yields the map union |
| Executor.MergedFromGlobals | executor.go:138-150 | a key no dependency defines keeps its global value, or stays absent |
| Executor.MergedLastWins | executor.go:144-150 | a key takes its value from the last dependency that defines it |
| Executor.TestExecutor.ExecuteTest | executor.go:137-175 | result, error and timeout are those of TestOutcome; only the client's timeout changes |
| Executor.ExtractAndAssert | executor.go:158-174 | extraction, then assertions only if extraction succeeded |
| Executor.OutcomeCascade | executor.go:153-174 | as stored: the test's name, success iff no message; a request error is stored with no variables; otherwise success iff extraction and every assertion pass |
| Executor.ExtractedKeeps | extractor.go:22-36 | extraction changes only the record's variables |
| Executor.AfterRequestRecord | executor.go:158-174 | after a successful request, the stored record fails exactly when an extraction rule or an assertion fails |
| Executor.TestExecutor.ExecuteSequential | executor.go:41-63 | records, store and timeout are those of the sequential run; the globals are unchanged |
| Executor.TestExecutor.RecordTest | executor.go:49-59 | one ready test: its record (failed with the returned error if any) stored under its name, nothing else stored |
| Executor.SequentialInOrder | executor.go:44-60 | the records are for a subsequence of the tests, in declaration order |
| Executor.SequentialStores | executor.go:55-57 | the store gains one entry per record name; entries no record names are unchanged; a duplicate name keeps its last record |
| Executor.IndependentsAllRun | executor.go:44-60 | tests without dependencies all run, one record each, in declaration order |
| Executor.DependentListedFirstIsSkipped | executor.go:44-47 | a test listed before its dependency is skipped and never retried |
| Executor.DependencyGates | executor.go:181-186 | a test after its one dependency runs iff that dependency's record succeeded |
| Executor.Filtered | executor.go:189-205 | the filtered tests are tests of the list, with or without dependencies as asked |
| Executor.TestExecutor.GetIndependentTests | executor.go:189-197 | the tests without dependencies, in declaration order |
| Executor.TestExecutor.GetDependentTests | executor.go:199-212 | a permutation of the dependent tests, sorted by non-decreasing dependency count |
| Executor.FilteredPartition | executor.go:189-205 | independents and dependents partition the tests |
| Executor.TestExecutor.ExecuteParallel | executor.go:65-135 | for some allowed dependent order: the store and timeout of running independents then dependents, and the records sorted by name |
| Executor.ParallelRunsIndependentsFirst | executor.go:97-111 | every independent test runs, and their records come first, in declaration order |
| Executor.ByNameOrders | executor.go:130-132 | ordering by name is a total preorder |
| Sorting.InsertionSort | executor.go:130-132 | the sorted slice is ordered and a permutation of the input |
| Benchmark.Concurrency | benchmark.go:34-36 | a positive worker count is kept; a non-positive one becomes 1 |
| Benchmark.SelectMode | benchmark.go:41-49 | `requests > 0` is fixed-count mode even with a duration; else a positive duration is timed mode; else an error |
| Benchmark.Plan | benchmark.go:34-60 | one share per worker, or the error exactly when neither requests nor duration is positive |
| Benchmark.PlanShares | benchmark.go:34-60 | the mode step computes Plan |
| Benchmark.Template | benchmark.go:131-136 | the attempt's request has no timeout and no body file |
| Benchmark.WorkerShares | benchmark.go:78-89 | the share loop computes FixedShares |
| Benchmark.SharesSum | benchmark.go:78-89 | the shares add up to the requested total |
| Benchmark.SharesBalanced | benchmark.go:84-89 | shares differ by at most one, larger ones first, none below `total / c` |
| Benchmark.TenOverThree | benchmark.go:78-89 | ten requests over three workers: 4, 3, 3 |
| Benchmark.WorkerAttempts | benchmark.go:138-151 | worker w makes n attempts, the i-th with its own I/O |
| Benchmark.BenchmarkExecutor.Worker | benchmark.go:130-152 | a worker's loop yields its attempts, and the client's timeout is unchanged |
| Benchmark.BenchmarkExecutor.RunWorkers | benchmark.go:84-95 | all workers' attempts, worker by worker; the timeout unchanged |
| Benchmark.AttemptRecord | benchmark.go:140-148 | an attempt succeeds iff no error and a successful record; its time, status and body size are recorded |
| Benchmark.AttemptIgnoresStatus | benchmark.go:144 | an attempt succeeds iff the request is built, sent and its body read, whatever its status |
| Benchmark.AttemptsCounted | benchmark.go:84-95 | there are as many attempts as the shares add up to |
| Benchmark.FixedRunTotal | benchmark.go:77-103 | a fixed run reports exactly the requested number of requests |
| Benchmark.CollectResults | benchmark.go:183-223 | the loop computes the aggregate |
| Benchmark.CountBounds | benchmark.go:198-217 | successes + failures = attempts; min and max bound every duration and are attained |
| Benchmark.AggregateMeaning | benchmark.go:190-220 | no attempts give the zero result; otherwise total, successes + failures, and least and greatest durations |
| Benchmark.SuccessesOrderFree | benchmark.go:186-188 | the success count does not depend on arrival order |
| Benchmark.ExtremesOrderFree | benchmark.go:199-217 | least and greatest durations do not depend on arrival order |
| Benchmark.AggregateOrderFree | benchmark.go:186-220 | the aggregate is the same for every order of the attempts |
| Benchmark.Finish | benchmark.go:66-72 | name and total time are set; the average is total time over requests in integer division, only when there were requests; nothing else changes |
| Benchmark.FinishRecord | benchmark.go:66-72 | the field updates at the end of executeBenchmark compute Finish |
| Benchmark.BenchmarkOutcome | benchmark.go:33-75 | the error exactly when neither mode is set; otherwise named and timed |
| Benchmark.OutcomeOfPlan | benchmark.go:33-75 | a planned benchmark is the finished aggregate of the attempts its plan makes |
| Benchmark.BenchmarkExecutor.ExecuteBenchmark | benchmark.go:33-75 | the result is BenchmarkOutcome; the client's timeout unchanged |
| Benchmark.BenchmarkExecutor.ExecuteBenchmarks | benchmark.go:19-31 | the result is the batch of all benchmarks; the client's timeout unchanged |
| Benchmark.BenchmarkExecutor.constructor | benchmark.go:13-17 | a fresh client for the base URL with the default timeout |
| Benchmark.BatchAllOk | benchmark.go:19-31 | a batch succeeds iff every benchmark does, with their results in input order |
| Benchmark.BatchFirstError | benchmark.go:22-26 | a failed batch names the first failing benchmark with its error; those before it succeeded |
| Runner.GetEnvVars | internal/runner/runner.go:138-145 | the loop computes EnvVars |
| Runner.EnvKeys | internal/runner/runner.go:139-144 | a key is defined iff some entry with a `=` defines it |
| Runner.EnvLastWins | internal/runner/runner.go:139-144 | a key's value is that of the last entry defining it |
| Runner.EnvSplitsAtFirstEquals | internal/runner/runner.go:140-143 | an entry is split at its first `=`, so the value may hold `=`; an entry without `=` is skipped |
| Runner.StatusPrefix | internal/runner/runner.go:90-93 | the validation's status code, or "2" when it gives none |
| Runner.StatusPrefixExamples | internal/runner/runner.go:90-97 | for a 404, "4" and "404" pass and "42" and the default fail; a 201 passes the default |
| Runner.InterfaceEqual | internal/runner/runner.go:117 | interface `!=`: unequal across types, a panic on two slices or maps, otherwise value equality |
| Runner.Coerced | internal/runner/runner.go:110-115 | an int expected becomes a float when the located value is a JSON number |
| Runner.ComparisonRules | internal/runner/runner.go:100-119 | a missing path fails; a number against an int compares values; other comparable pairs use `==`; two slices or maps panic |
| Runner.NumberIsNotString | internal/runner/runner.go:110-119 | a JSON number never equals a string that spells it |
| Runner.ResponseBody.ReadAll | internal/runner/runner.go:83-87 | a read returns what is left; after a successful read nothing is left, after a failed one the body is as it was |
| Runner.CheckValidation | internal/runner/runner.go:89-120 | the status check, then the comparison of one validation |
| Runner.PerformValidation | internal/runner/runner.go:79-125 | the verdict is that of the validations in order, stopping at the first failure; the body is drained |
| Runner.ValidateFirst | internal/runner/runner.go:81-97 | a failed read halts; a failed check stops; a pass goes on with an empty body |
| Runner.ValidateFirstFailure | internal/runner/runner.go:81-122 | each validation is judged on its own, the first on the body and later ones on ""; the first failure is reported |
| Runner.SecondValidationSeesEmptyBody | internal/runner/runner.go:83-87 | the same check twice: the first passes, the second finds no path in the drained body |
| Runner.RunTest | internal/runner/runner.go:25-77 | the run computes RunOutcome |
| Runner.RunVerdict | internal/runner/runner.go:30-76 | the test case is kept; passed iff no error iff the template, request, transport and every validation succeed |
| Runner.NoValidationsPass | internal/runner/runner.go:60-76 | without validations, any answered request passes |
| Values.ShowIntRoundTrip | extractor.go:76 | the `%v` text of an int reads back as the int |
| Values.ShowWholeFloat | extractor.go:76 | a whole float below 1e6 prints like the int |
| GoStrconv.AtoiItoa | extractor.go:57 | Atoi inverts Itoa on 64-bit integers |
| GoStrconv.ParseFloatOfInteger | assertions.go:409-415 | every integer Atoi accepts, ParseFloat accepts with the same value |
| GoStrings.SplitOnce | extractor.go:39-45 | the two parts around the first separator, and none without one |
| GoStrings.IndexOf | assertions.go:277-278 | the first position of the character, or -1 |
| MapOrder.SortedKeysEnumerate | parser.go:54 | ascending key order is one of the orders `range` may visit |

## Left out

- Network, files, environment and clock: `http.Client.Do`, `http.NewRequest`, the body read, `os.ReadFile`, `os.Environ` and `time.Now`/`time.Since` are fields of `Client.Io` and `Runner.RunnerIo`. Durations are given naturals in nanoseconds.
- Concurrency: the goroutines, channels, `sync.WaitGroup` and mutex of executor.go and benchmark.go are run one after another. The benchmark aggregate is independent of arrival order (`Benchmark.AggregateOrderFree`). The parallel test mode runs the independents in declaration order; other interleavings are not modelled.
- Executor.TestExecutor.ExecuteParallel: the default of 10 workers for a non-positive `maxWorkers` (executor.go:66-68) has no effect when tests run one at a time, so it is not modelled. `Parser.DefaultWorkers` states the same rule for the suite.
- The timed benchmark mode: `time.AfterFunc` and the stop channel become `Traffic.timedShares`, the number of requests each worker completes.
- `RequestsPerSec` (benchmark.go:70) is a float division and is left out. The unused `totalDuration` sum (benchmark.go:198-203) is left out too.
- The `Benchmark` and `BenchmarkResult` declarations are not part of this model's sources. Their fields are taken from their uses in benchmark.go.
- Floating point: floats are mathematical reals. `%v` of a float that is not a whole number below 1e6, and `%.2f`, are given functions. `ParseFloat` accepts decimal literals only: no `inf`, `nan`, hexadecimal or underscores, and no rounding to float64.
- Foreign libraries: encoding/json, gjson, goquery, Go's regexp, `html/template` and YAML are given functions or decoded values.
- `Assertions.NormalizeTypes`: assertions.go:360-372 repeat the conditions of lines 353-358, which already returned, so those lines are unreachable and not modelled.
- Client.SetHeaders: `req.Header.Set` canonicalises header names (client.go:77); the model keeps names as written. Response headers are looked up by indexing the map directly (assertions.go:147, extractor.go:80), and the model does the same.
- Executor.TestExecutor.GetDependentTests: `sort.Slice` is unstable, so its `ensures` allows every order of tests with equal dependency counts.
- Executor.TestExecutor.ExecuteTestSuite: the specification functions fix the order in which a test's extraction rules run to ascending names. `Extractor.ExtractVariables` itself takes any order.
- The request I/O of each executor test is a function of the test (`net`). Two runs of the same test meet the same world.
- A `*TestResult` that the executor changes after the client returns is modelled as a new value. No other reference to it is observable before it is stored.
- Calls that end the process or panic (`log.Fatal`, `template.Must`, `!=` on slices or maps) are the `Runner.Halt` values. The panics of the JSON path walk are `None` in `JsonPath.StepAsWritten` (see Findings).
- YAML loading, the CLIs, reports, the example program and the `TestRunner` wrapper are not part of this model.
- Assertions.GetJSONPathValue: on a negative index or a `]` before `[`, it returns the corrected step's error where Go panics (assertions.go:278, 298). See Findings.
- Extractor.ProcessJSONPath: likewise returns the corrected step's error where Go panics (extractor.go:150, 171).
- Extractor.GetJSONPathValue: likewise, through Extractor.ProcessJSONPath.
- Client.PrepareRequest: the URL, headers and body are interpolated in ascending key order, one of the orders Go's `range` may take. For texts with a stray `$`, Go may build a different request (`Interpolation.InterpolationOrderMatters`). The same holds for Client.RequestBody, Client.RequestHeaders, Client.HttpClient.ExecuteRequest and the executor members built on them.
- Assertions.InterpolateString: the expected value and the path are interpolated in ascending key order. For texts with a stray `$`, Go may produce another value. The same holds for Assertions.InterpolateAssertion and Assertions.InterpolateExpectedValue.
- Client.RequestMethod: `strings.ToUpper` maps every Unicode letter; the model upper-cases ASCII letters only and keeps other characters.
- Interpolation.UnknownPlaceholderKept: proved for variable names without `$` or `}`. A name with `}` can swallow another placeholder (`Interpolation.BraceInNameSwallowsPlaceholder`).
- Interpolation.KnownPlaceholdersReplaced: proved only for texts with no `$` outside placeholders and values without `$`. A stray `$` can rebuild a replaced placeholder (`Interpolation.StrayDollarRebuildsPlaceholder`).
- Interpolation.InterpolationOrderIrrelevant: the order is proved irrelevant only for texts whose pieces hold no `$` outside placeholders and values without `$`. `Interpolation.InterpolationOrderMatters` shows that "no value contains `${`" is not enough.

## Findings

| source | as written | input that shows it | evidently intended | confidence | as-written member | corrected member |
|---|---|---|---|---|---|---|
| assertions.go:296-299 (also extractor.go:168-171) | the only bounds test is `index >= len(currentArray)`, so `currentArray[index]` panics for a negative index | assertion path `items[-1]` on `{"items": [1]}` | the error "array index -1 out of bounds" | not executed | JsonPath.NegativeIndexPanics | JsonPath.IndexedStepAt |
| assertions.go:277-278 (also extractor.go:149-150) | `part[strings.Index(part, "[")+1 : strings.Index(part, "]")]` panics when `]` comes before `[` | path segment `a]b[0` | the error "invalid array index" | not executed | JsonPath.ClosingBracketFirstPanics | JsonPath.ClosingBracketFirstStep |
