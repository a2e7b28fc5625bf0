/**
 * The test scheduler (executor.go). A TestExecutor keeps the suite's global variables and a
 * store of results by test name. A test runs only when every test it depends on has a stored
 * successful result; it sees the globals overlaid with its dependencies' variables; its
 * result is stored under its name. Sequential execution goes in declaration order; parallel
 * execution runs the independent tests, then the dependent ones ordered by how many
 * dependencies they have (not a topological order), and sorts the records by name.
 *
 * The worker pool of the parallel mode is run one test at a time, independents in
 * declaration order. Each test's traffic is given by `net`, the I/O its request meets.
 */
module Executor {
  import opened Wrappers
  import opened MapOrder
  import opened Types
  import opened Assertions
  import opened Extractor
  import opened Client
  import opened Sorting

  // ---------------------------------------------------------------------------------------
  // The variables a test sees

  /** Dependency `dep` has a stored result whose variables define `k`. */
  predicate Provides(results: map<string, TestResult>, dep: string, k: string)
  {
    dep in results && results[dep].variables.Some? && k in results[dep].variables.value
  }

  /** One dependency's variables laid over `vars`: a stored result with variables overwrites. */
  function Overlay(vars: map<string, string>, results: map<string, TestResult>, dep: string): map<string, string>
  {
    if dep in results && results[dep].variables.Some? then vars + results[dep].variables.value else vars
  }

  /** The globals, then each dependency in `dependsOn` order laid over them. */
  function Merged(globals: map<string, string>, results: map<string, TestResult>, deps: seq<string>): map<string, string>
    decreases |deps|
  {
    if deps == [] then globals
    else Overlay(Merged(globals, results, deps[..|deps| - 1]), results, deps[|deps| - 1])
  }

  /** Copying a map into an empty one yields the map. */
  lemma EmptyOverlay(m: map<string, string>)
    ensures map[] + m == m
  {
  }

  /** One more dependency is laid over the variables merged so far. */
  lemma MergedStep(globals: map<string, string>, results: map<string, TestResult>, deps: seq<string>, i: nat)
    requires i < |deps|
    ensures Merged(globals, results, deps[..i + 1]) == Overlay(Merged(globals, results, deps[..i]), results, deps[i])
  {
    assert deps[..i + 1][..i] == deps[..i];
  }

  /** canExecuteTest: every dependency has a stored result, and it succeeded. */
  predicate Ready(results: map<string, TestResult>, test: Test)
  {
    forall d :: d in test.dependsOn ==> d in results && results[d].success
  }

  // ---------------------------------------------------------------------------------------
  // One test

  /** What one executeTest call returns, and the client's timeout after it. */
  datatype Outcome = Outcome(result: TestResult, err: Failure, timeout: int)

  /**
   * The extraction step of executeTest: skipped without rules, else the rules run in
   * ascending name order (one of the orders `range` may take) and the result carries the
   * variables written, with the failure if a rule failed.
   */
  function Extracted(result: TestResult, test: Test, lib: Libraries): (TestResult, Option<ExtractError>)
  {
    if |test.extract| == 0 then (result, None)
    else
      var (vars, failure) := ExtractRun(StartingVariables(result), RuleOutcomes(result, test.extract, lib), SortedKeys(test.extract.Keys));
      (result.(variables := Some(vars)), failure)
  }

  /** The assertion errors of executeTest: none when the test has no assertions. */
  function Checked(result: TestResult, test: Test, vars: map<string, string>, lib: Libraries): seq<AssertionError>
  {
    if |test.assertions| == 0 then [] else Failures(result, test.assertions, Some(vars), lib)
  }

  /**
   * The rest of executeTest once the request returned no error: extraction, then (only if it
   * succeeded) the assertions, run with the merged variables. Returns the record and the error.
   */
  function AfterRequest(result: TestResult, test: Test, vars: map<string, string>, lib: Libraries): (TestResult, Failure)
  {
    var (extracted, failure) := Extracted(result, test, lib);
    if failure.Some? then
      (extracted.(success := false, error := ExtractionFailed(failure.value)), Extraction(failure.value))
    else
      var errors := Checked(extracted, test, vars, lib);
      if errors != [] then (extracted.(success := false, error := AssertionsFailed(errors)), NoFailure)
      else (extracted, NoFailure)
  }

  /** executeTest: the request; only if it returned no error, extraction and assertions. */
  function TestOutcome(baseURL: string, clientTimeout: int, globals: map<string, string>,
                       results: map<string, TestResult>, test: Test, io: Io, lib: Libraries): Outcome
  {
    var vars := Merged(globals, results, test.dependsOn);
    var (result, err, timeout) := RequestOutcome(baseURL, clientTimeout, test, vars, io);
    if err != NoFailure then Outcome(result, err, timeout)
    else
      var (checked, failure) := AfterRequest(result, test, vars, lib);
      Outcome(checked, failure, timeout)
  }

  /** What the callers of executeTest store: a returned error marks the record failed and replaces its message. */
  function Recorded(o: Outcome): TestResult
  {
    if o.err == NoFailure then o.result else o.result.(success := false, error := o.err)
  }

  // ---------------------------------------------------------------------------------------
  // Many tests

  /** The records appended so far, the result store, and the client's timeout. */
  datatype Run = Run(emitted: seq<TestResult>, results: map<string, TestResult>, timeout: int)

  /**
   * How a test turns out given the stored results and the client's timeout when it starts.
   * The executor's is `Executing`; the scheduling below holds for any.
   */
  type Executes = (map<string, TestResult>, int, Test) -> Outcome

  /** The executor's executeTest, for a given base URL, globals, network and libraries. */
  function Executing(baseURL: string, globals: map<string, string>, net: Test -> Io, lib: Libraries): Executes
  {
    (results: map<string, TestResult>, timeout: int, test: Test) => TestOutcome(baseURL, timeout, globals, results, test, net(test), lib)
  }

  /** Every outcome's record carries the name of its test. */
  ghost predicate KeepsNames(execute: Executes)
  {
    forall results, timeout, test :: execute(results, timeout, test).result.name == test.name
  }

  /** One test run and its record stored under its name and appended. */
  function RunOne(run: Run, test: Test, execute: Executes): Run
  {
    var outcome := execute(run.results, run.timeout, test);
    Run(run.emitted + [Recorded(outcome)], run.results[test.name := Recorded(outcome)], outcome.timeout)
  }

  /** The tests taken in order; each runs if it is ready when reached and is skipped for good otherwise. */
  function Sequential(run: Run, tests: seq<Test>, execute: Executes): Run
    decreases |tests|
  {
    if tests == [] then run
    else
      var next := if Ready(run.results, tests[0]) then RunOne(run, tests[0], execute) else run;
      Sequential(next, tests[1..], execute)
  }

  /** The tests with (`dependent`) or without dependencies, in declaration order. */
  function Filtered(tests: seq<Test>, dependent: bool): (r: seq<Test>)
    ensures forall t :: t in r ==> t in tests && (|t.dependsOn| > 0 <==> dependent)
    decreases |tests|
  {
    if tests == [] then []
    else
      var last := tests[|tests| - 1];
      Filtered(tests[..|tests| - 1], dependent) + if (|last.dependsOn| > 0) == dependent then [last] else []
  }

  /** Fewer dependencies first. */
  function ByDependencyCount(): (le: (Test, Test) -> bool)
  {
    (x: Test, y: Test) => |x.dependsOn| <= |y.dependsOn|
  }

  /** By name, ascending. */
  function ByName(): (le: (TestResult, TestResult) -> bool)
  {
    (x: TestResult, y: TestResult) => LexLe(x.name, y.name)
  }

  /** An order sort.Slice may give the dependent tests: all of them, fewer dependencies first. */
  ghost predicate DependencyOrder(order: seq<Test>, tests: seq<Test>)
  {
    multiset(order) == multiset(Filtered(tests, true)) && SortedBy(order, ByDependencyCount())
  }

  /** The parallel mode run one test at a time: the independent tests, then the dependents in `order`. */
  function ParallelRun(run: Run, tests: seq<Test>, order: seq<Test>, execute: Executes): Run
  {
    Sequential(Sequential(run, Filtered(tests, false), execute), order, execute)
  }

  /** The global variables a suite installs: none becomes an empty map. */
  function SuiteVariables(suite: TestSuite): (vars: map<string, string>)
    ensures suite.variables.None? ==> vars == map[]
    ensures suite.variables.Some? ==> vars == suite.variables.value
  {
    if suite.variables.None? then map[] else suite.variables.value
  }

  // ---------------------------------------------------------------------------------------
  // The executor

  /** `target` with every entry of `source` copied in, visiting the keys in `order`. */
  method CopyInto(target: map<string, string>, source: map<string, string>, order: seq<string>) returns (r: map<string, string>)
    requires Enumerates(order, source)
    ensures r == target + source
  {
    r := target;
    var i := 0;
    while i < |order|
      invariant 0 <= i <= |order|
      invariant forall k :: k in r <==> k in target || k in order[..i]
      invariant forall k :: k in r ==> r[k] == if k in order[..i] then source[k] else target[k]
    {
      assert order[..i + 1] == order[..i] + [order[i]];
      r := r[order[i] := source[order[i]]];
      i := i + 1;
    }
    assert order[..i] == order;
    assert r.Keys == (target + source).Keys;
  }

  /** The extraction and assertion steps of executeTest. */
  method ExtractAndAssert(result: TestResult, test: Test, current: map<string, string>, lib: Libraries)
    returns (checked: TestResult, err: Failure)
    ensures (checked, err) == AfterRequest(result, test, current, lib)
  {
    checked, err := result, NoFailure;
    if |test.extract| > 0 {
      SortedKeysEnumerate(test.extract);
      var failure;
      checked, failure := ExtractVariables(checked, test.extract, SortedKeys(test.extract.Keys), lib);
      if failure.Some? {
        checked := checked.(success := false, error := ExtractionFailed(failure.value));
        return checked, Extraction(failure.value);
      }
    }
    if |test.assertions| > 0 {
      var errors := RunAssertions(checked, test.assertions, Some(current), lib);
      if |errors| > 0 {
        checked := checked.(success := false, error := AssertionsFailed(errors));
      }
    }
  }

  class TestExecutor {
    const client: HttpClient
    const lib: Libraries
    var globalVariables: map<string, string>
    var testResults: map<string, TestResult>

    /** NewTestExecutor: a fresh client, no globals, no stored results. */
    constructor(baseURL: string, lib: Libraries)
      ensures fresh(client) && client.baseURL == baseURL && client.timeout == DefaultTimeout
      ensures this.lib == lib && globalVariables == map[] && testResults == map[]
    {
      client := new HttpClient(baseURL);
      this.lib := lib;
      globalVariables := map[];
      testResults := map[];
    }

    /** canExecuteTest */
    method CanExecuteTest(test: Test) returns (ready: bool)
      ensures ready <==> Ready(testResults, test)
    {
      var i := 0;
      while i < |test.dependsOn|
        invariant 0 <= i <= |test.dependsOn|
        invariant forall j :: 0 <= j < i ==> test.dependsOn[j] in testResults && testResults[test.dependsOn[j]].success
      {
        var dep := test.dependsOn[i];
        if !(dep in testResults && testResults[dep].success) {
          return false;
        }
        i := i + 1;
      }
      return true;
    }

    /** The variable merge at the head of executeTest. */
    method MergeVariables(test: Test) returns (current: map<string, string>)
      ensures current == Merged(globalVariables, testResults, test.dependsOn)
    {
      var deps := test.dependsOn;
      SortedKeysEnumerate(globalVariables);
      current := CopyInto(map[], globalVariables, SortedKeys(globalVariables.Keys));
      EmptyOverlay(globalVariables);
      var i := 0;
      while i < |deps|
        invariant 0 <= i <= |deps|
        invariant current == Merged(globalVariables, testResults, deps[..i])
      {
        MergedStep(globalVariables, testResults, deps, i);
        current := OverlayDependency(current, deps[i]);
        i := i + 1;
      }
      assert deps[..i] == deps;
    }

    /** One dependency's variables copied over `current`, if it has a stored result with variables. */
    method OverlayDependency(current: map<string, string>, dep: string) returns (r: map<string, string>)
      ensures r == Overlay(current, testResults, dep)
    {
      r := current;
      if dep in testResults && testResults[dep].variables.Some? {
        var provided := testResults[dep].variables.value;
        SortedKeysEnumerate(provided);
        r := CopyInto(current, provided, SortedKeys(provided.Keys));
      }
    }

    /** executeTest: only the client's timeout changes. */
    method ExecuteTest(test: Test, io: Io) returns (result: TestResult, err: Failure)
      modifies client
      ensures Outcome(result, err, client.timeout) ==
        TestOutcome(client.baseURL, old(client.timeout), globalVariables, testResults, test, io, lib)
    {
      var current := MergeVariables(test);
      result, err := client.ExecuteRequest(test, current, io);
      if err == NoFailure {
        result, err := ExtractAndAssert(result, test, current, lib);
      }
    }

    /** executeSequential; also the dependent phase of executeParallel, which runs the same steps. */
    method ExecuteSequential(tests: seq<Test>, net: Test -> Io) returns (results: seq<TestResult>)
      modifies this, client
      ensures var run := Sequential(Run([], old(testResults), old(client.timeout)), tests, Executing(client.baseURL, globalVariables, net, lib));
        results == run.emitted && testResults == run.results && client.timeout == run.timeout
      ensures globalVariables == old(globalVariables)
    {
      ghost var execute := Executing(client.baseURL, globalVariables, net, lib);
      ghost var goal := Sequential(Run([], testResults, client.timeout), tests, execute);
      results := [];
      var i := 0;
      while i < |tests|
        invariant 0 <= i <= |tests|
        invariant globalVariables == old(globalVariables)
        invariant Sequential(Run(results, testResults, client.timeout), tests[i..], execute) == goal
      {
        var test := tests[i];
        ghost var before := Run(results, testResults, client.timeout);
        assert tests[i..][0] == test && tests[i..][1..] == tests[i + 1..];
        var ready := CanExecuteTest(test);
        if ready {
          var result := RecordTest(test, net(test));
          assert Recorded(execute(before.results, before.timeout, test)) == result;
          results := results + [result];
          assert Run(results, testResults, client.timeout) == RunOne(before, test, execute);
        }
        i := i + 1;
      }
    }

    /** One ready test of executeSequential: run it, overwrite a failure with the error returned, store the record. */
    method RecordTest(test: Test, io: Io) returns (result: TestResult)
      modifies this, client
      ensures var outcome := TestOutcome(client.baseURL, old(client.timeout), globalVariables, old(testResults), test, io, lib);
        result == Recorded(outcome) && client.timeout == outcome.timeout
      ensures testResults == old(testResults)[test.name := result]
      ensures globalVariables == old(globalVariables)
    {
      var err;
      result, err := ExecuteTest(test, io);
      if err != NoFailure {
        result := result.(success := false, error := err);
      }
      testResults := testResults[test.name := result];
    }

    /** getIndependentTests */
    method GetIndependentTests(tests: seq<Test>) returns (independent: seq<Test>)
      ensures independent == Filtered(tests, false)
    {
      independent := [];
      var i := 0;
      while i < |tests|
        invariant 0 <= i <= |tests|
        invariant independent == Filtered(tests[..i], false)
      {
        assert tests[..i + 1][..i] == tests[..i];
        if |tests[i].dependsOn| == 0 {
          independent := independent + [tests[i]];
        }
        i := i + 1;
      }
      assert tests[..i] == tests;
    }

    /** getDependentTests: the tests with dependencies, sorted by their number. */
    method GetDependentTests(tests: seq<Test>) returns (dependent: seq<Test>)
      ensures DependencyOrder(dependent, tests)
    {
      var selected := [];
      var i := 0;
      while i < |tests|
        invariant 0 <= i <= |tests|
        invariant selected == Filtered(tests[..i], true)
      {
        assert tests[..i + 1][..i] == tests[..i];
        if |tests[i].dependsOn| > 0 {
          selected := selected + [tests[i]];
        }
        i := i + 1;
      }
      assert tests[..i] == tests;
      var arr := new Test[|selected|](j requires 0 <= j < |selected| => selected[j]);
      assert arr[..] == selected;
      InsertionSort(arr, ByDependencyCount());
      dependent := arr[..];
    }

    /**
     * executeParallel, one test at a time: the independent tests, then the dependent ones in
     * the order getDependentTests gives, the records sorted by name at the end.
     */
    method ExecuteParallel(tests: seq<Test>, net: Test -> Io) returns (results: seq<TestResult>)
      modifies this, client
      ensures globalVariables == old(globalVariables)
      ensures exists order :: (DependencyOrder(order, tests) &&
        var run := ParallelRun(Run([], old(testResults), old(client.timeout)), tests, order, Executing(client.baseURL, globalVariables, net, lib));
        && testResults == run.results && client.timeout == run.timeout
        && SortedBy(results, ByName()) && multiset(results) == multiset(run.emitted))
    {
      ghost var start := Run([], testResults, client.timeout);
      var independent := GetIndependentTests(tests);
      var first := ExecuteSequential(independent, net);
      ghost var middle := Run(first, testResults, client.timeout);
      var dependent := GetDependentTests(tests);
      var second := ExecuteSequential(dependent, net);
      SequentialShift(first, Run([], middle.results, middle.timeout), dependent, Executing(client.baseURL, globalVariables, net, lib));
      results := first + second;
      var arr := new TestResult[|results|](j requires 0 <= j < |results| => results[j]);
      assert arr[..] == results;
      ByNameOrders();
      InsertionSort(arr, ByName());
      results := arr[..];
      assert DependencyOrder(dependent, tests);
    }

    /** ExecuteTestSuite: install the globals (none becomes empty), then run in the suite's mode. */
    method ExecuteTestSuite(suite: TestSuite, net: Test -> Io) returns (results: seq<TestResult>)
      modifies this, client
      ensures globalVariables == SuiteVariables(suite)
      ensures !suite.parallel ==>
        var run := Sequential(Run([], old(testResults), old(client.timeout)), suite.tests, Executing(client.baseURL, globalVariables, net, lib));
        results == run.emitted && testResults == run.results && client.timeout == run.timeout
      ensures suite.parallel ==> exists order :: (DependencyOrder(order, suite.tests) &&
        var run := ParallelRun(Run([], old(testResults), old(client.timeout)), suite.tests, order, Executing(client.baseURL, globalVariables, net, lib));
        && testResults == run.results && client.timeout == run.timeout
        && SortedBy(results, ByName()) && multiset(results) == multiset(run.emitted))
    {
      if suite.variables.None? {
        globalVariables := map[];
      } else {
        globalVariables := suite.variables.value;
      }
      if suite.parallel {
        results := ExecuteParallel(suite.tests, net);
      } else {
        results := ExecuteSequential(suite.tests, net);
      }
    }
  }

  // ---------------------------------------------------------------------------------------
  // Properties

  /** Names order test records as a total preorder. */
  lemma ByNameOrders()
    ensures TotalPreorder(ByName())
  {
    forall x: TestResult, y: TestResult ensures ByName()(x, y) || ByName()(y, x) {
      LexLeTotal(x.name, y.name);
    }
    forall x: TestResult, y: TestResult, z: TestResult | ByName()(x, y) && ByName()(y, z) ensures ByName()(x, z) {
      LexLeTransitive(x.name, y.name, z.name);
    }
  }

  /** Records already appended stay in front; the store and the timeout do not depend on them. */
  lemma {:induction false} SequentialShift(before: seq<TestResult>, run: Run, tests: seq<Test>, execute: Executes)
    requires run.emitted == []
    ensures var plain := Sequential(run, tests, execute);
      Sequential(run.(emitted := before), tests, execute) == plain.(emitted := before + plain.emitted)
    decreases |tests|
  {
    if tests != [] {
      if Ready(run.results, tests[0]) {
        var next := RunOne(run, tests[0], execute);
        var rest := next.(emitted := []);
        assert RunOne(run.(emitted := before), tests[0], execute) == rest.(emitted := before + next.emitted);
        assert next == rest.(emitted := next.emitted);
        SequentialShift(before + next.emitted, rest, tests[1..], execute);
        SequentialShift(next.emitted, rest, tests[1..], execute);
      } else {
        SequentialShift(before, run, tests[1..], execute);
      }
    }
  }

  /** Sequential from an empty record list, after one test ran: its record, then the rest's. */
  lemma AfterFirst(run: Run, tests: seq<Test>, execute: Executes)
    requires run.emitted == [] && tests != [] && Ready(run.results, tests[0])
    ensures var next := RunOne(run, tests[0], execute);
      var plain := Sequential(next.(emitted := []), tests[1..], execute);
      Sequential(run, tests, execute) == plain.(emitted := next.emitted + plain.emitted)
  {
    var next := RunOne(run, tests[0], execute);
    SequentialShift(next.emitted, next.(emitted := []), tests[1..], execute);
    assert next.(emitted := []).(emitted := next.emitted) == next;
  }

  /** The names of records, in order. */
  function Names(records: seq<TestResult>): (names: seq<string>)
    ensures |names| == |records| && forall i :: 0 <= i < |records| ==> names[i] == records[i].name
  {
    seq(|records|, i requires 0 <= i < |records| => records[i].name)
  }

  /** The names of tests, in order. */
  function TestNames(tests: seq<Test>): (names: seq<string>)
    ensures |names| == |tests| && forall i :: 0 <= i < |tests| ==> names[i] == tests[i].name
  {
    seq(|tests|, i requires 0 <= i < |tests| => tests[i].name)
  }

  /** `a` is `b` with some elements left out, the rest in the same order. */
  predicate IsSubsequence<T(==)>(a: seq<T>, b: seq<T>)
    decreases |b|
  {
    a == [] || (b != [] && ((a[0] == b[0] && IsSubsequence(a[1..], b[1..])) || IsSubsequence(a, b[1..])))
  }

  /**
   * The variables a test sees: a key that no dependency's stored variables define keeps its
   * global value (or stays absent).
   */
  lemma {:induction false} MergedFromGlobals(globals: map<string, string>, results: map<string, TestResult>, deps: seq<string>, k: string)
    requires forall d :: d in deps ==> !Provides(results, d, k)
    ensures k in Merged(globals, results, deps) <==> k in globals
    ensures k in globals ==> Merged(globals, results, deps)[k] == globals[k]
    decreases |deps|
  {
    if deps != [] {
      assert forall d :: d in deps[..|deps| - 1] ==> d in deps;
      assert deps[|deps| - 1] in deps;
      MergedFromGlobals(globals, results, deps[..|deps| - 1], k);
    }
  }

  /** The later dependency wins: a key takes its value from the last dependency that defines it. */
  lemma {:induction false} MergedLastWins(globals: map<string, string>, results: map<string, TestResult>, deps: seq<string>, k: string, i: int)
    requires 0 <= i < |deps| && Provides(results, deps[i], k)
    requires forall j :: i < j < |deps| ==> !Provides(results, deps[j], k)
    ensures k in Merged(globals, results, deps)
    ensures Merged(globals, results, deps)[k] == results[deps[i]].variables.value[k]
    decreases |deps|
  {
    if i < |deps| - 1 {
      MergedLastWins(globals, results, deps[..|deps| - 1], k, i);
      assert !Provides(results, deps[|deps| - 1], k);
    }
  }

  /**
   * The failure cascade of executeTest, as stored: the record carries the test's name and
   * succeeds exactly when its message is empty. A request error is stored with that error and
   * no variables (nothing extracted, nothing asserted); otherwise the record succeeds exactly
   * when every extraction rule and every assertion succeeds.
   */
  lemma OutcomeCascade(baseURL: string, clientTimeout: int, globals: map<string, string>,
                       results: map<string, TestResult>, test: Test, io: Io, lib: Libraries)
    ensures var vars := Merged(globals, results, test.dependsOn);
      var (response, err, _) := RequestOutcome(baseURL, clientTimeout, test, vars, io);
      var (extracted, failure) := Extracted(response, test, lib);
      var record := Recorded(TestOutcome(baseURL, clientTimeout, globals, results, test, io, lib));
      && record.name == test.name
      && (record.success <==> record.error == NoFailure)
      && (err != NoFailure ==> !record.success && record.error == err && record.variables.None?)
      && (record.success <==> err == NoFailure && failure.None? && Checked(extracted, test, vars, lib) == [])
  {
    var vars := Merged(globals, results, test.dependsOn);
    OutcomeRecord(baseURL, clientTimeout, test, vars, io);
    var (response, err, timeout) := RequestOutcome(baseURL, clientTimeout, test, vars, io);
    if err == NoFailure {
      var (checked, failure) := AfterRequest(response, test, vars, lib);
      assert TestOutcome(baseURL, clientTimeout, globals, results, test, io, lib) == Outcome(checked, failure, timeout);
      AfterRequestRecord(response, test, vars, lib, timeout);
    } else {
      assert TestOutcome(baseURL, clientTimeout, globals, results, test, io, lib) == Outcome(response, err, timeout);
    }
  }

  /** Extraction only sets the variables of the record. */
  lemma ExtractedKeeps(result: TestResult, test: Test, lib: Libraries)
    ensures var e := Extracted(result, test, lib).0;
      e.name == result.name && e.success == result.success && e.error == result.error
  {
  }

  /**
   * After a successful request, the stored record fails exactly when an extraction rule or an
   * assertion fails, and then carries a message.
   */
  lemma AfterRequestRecord(result: TestResult, test: Test, vars: map<string, string>, lib: Libraries, timeout: int)
    requires result.success && result.error == NoFailure
    ensures var (checked, failure) := AfterRequest(result, test, vars, lib);
      var (extracted, f) := Extracted(result, test, lib);
      var record := Recorded(Outcome(checked, failure, timeout));
      && record.name == result.name
      && (record.success <==> record.error == NoFailure)
      && (record.success <==> f.None? && Checked(extracted, test, vars, lib) == [])
  {
    ExtractedKeeps(result, test, lib);
  }

  /** The executor's records carry their tests' names. */
  lemma ExecutingKeepsNames(baseURL: string, globals: map<string, string>, net: Test -> Io, lib: Libraries)
    ensures KeepsNames(Executing(baseURL, globals, net, lib))
  {
    forall results, timeout, test ensures Executing(baseURL, globals, net, lib)(results, timeout, test).result.name == test.name {
      OutcomeCascade(baseURL, timeout, globals, results, test, net(test), lib);
    }
  }

  /**
   * executeSequential returns records for a subsequence of the tests, in declaration order:
   * a test that is not ready when reached gets no record.
   */
  lemma {:induction false} SequentialInOrder(run: Run, tests: seq<Test>, execute: Executes)
    requires run.emitted == [] && KeepsNames(execute)
    ensures IsSubsequence(Names(Sequential(run, tests, execute).emitted), TestNames(tests))
    decreases |tests|
  {
    if tests != [] {
      assert TestNames(tests)[1..] == TestNames(tests[1..]);
      if Ready(run.results, tests[0]) {
        var next := RunOne(run, tests[0], execute);
        AfterFirst(run, tests, execute);
        SequentialInOrder(next.(emitted := []), tests[1..], execute);
        var plain := Sequential(next.(emitted := []), tests[1..], execute);
        assert Names(next.emitted + plain.emitted)[1..] == Names(plain.emitted);
      } else {
        SequentialInOrder(run, tests[1..], execute);
      }
    }
  }

  /**
   * What executeSequential stores: the old entries plus one per record. An entry no record
   * names is left as it was; the last record with a name is the one stored under it (a
   * duplicate name overwrites the earlier result).
   */
  lemma {:induction false} SequentialStores(run: Run, tests: seq<Test>, execute: Executes)
    requires run.emitted == [] && KeepsNames(execute)
    ensures var out := Sequential(run, tests, execute);
      Stores(run.results, out.emitted, out.results)
    decreases |tests|
  {
    if tests != [] {
      if Ready(run.results, tests[0]) {
        var next := RunOne(run, tests[0], execute);
        var start := next.(emitted := []);
        var plain := Sequential(start, tests[1..], execute);
        AfterFirst(run, tests, execute);
        SequentialStores(start, tests[1..], execute);
        StoresStep(run, tests[0], execute, plain);
      } else {
        SequentialStores(run, tests[1..], execute);
      }
    }
  }

  /**
   * `after` is `before` with the records stored in order: one entry more per new name, the
   * entries no record names left as they were, and under each name its last record.
   */
  ghost predicate Stores(before: map<string, TestResult>, emitted: seq<TestResult>, after: map<string, TestResult>)
  {
    && after.Keys == before.Keys + (set r | r in emitted :: r.name)
    && KeepsUnnamed(before, emitted, after)
    && LastWins(emitted, after)
  }

  /** The entries no record names are left as they were. */
  ghost predicate KeepsUnnamed(before: map<string, TestResult>, emitted: seq<TestResult>, after: map<string, TestResult>)
  {
    forall k :: k in before && k !in Names(emitted) ==> k in after && after[k] == before[k]
  }

  /** Under each name is its last record. */
  ghost predicate LastWins(emitted: seq<TestResult>, after: map<string, TestResult>)
  {
    forall i :: 0 <= i < |emitted| && LastOfName(emitted, i) ==>
      emitted[i].name in after && after[emitted[i].name] == emitted[i]
  }

  /** No record after the `i`-th carries its name. */
  ghost predicate LastOfName(emitted: seq<TestResult>, i: int)
    requires 0 <= i < |emitted|
  {
    forall j :: i < j < |emitted| ==> emitted[j].name != emitted[i].name
  }

  /** The step of SequentialStores: one record in front of what the rest stored. */
  lemma StoresStep(run: Run, test: Test, execute: Executes, plain: Run)
    requires KeepsNames(execute)
    requires Stores(RunOne(run, test, execute).results, plain.emitted, plain.results)
    ensures Stores(run.results, RunOne(run, test, execute).emitted[|run.emitted|..] + plain.emitted, plain.results)
  {
    var next := RunOne(run, test, execute);
    var record := Recorded(execute(run.results, run.timeout, test));
    assert record.name == test.name;
    assert next.emitted[|run.emitted|..] == [record];
    StoreFirst(run.results, record, plain.emitted, plain.results);
  }

  /** Storing one record and then the rest is storing all of them. */
  lemma StoreFirst(before: map<string, TestResult>, record: TestResult, rest: seq<TestResult>, after: map<string, TestResult>)
    requires Stores(before[record.name := record], rest, after)
    ensures Stores(before, [record] + rest, after)
  {
    var emitted := [record] + rest;
    assert (set r | r in emitted :: r.name) == {record.name} + (set r | r in rest :: r.name);
    NamesFirst(record, rest);
    KeepsUnnamedFirst(before, record, rest, after);
    LastWinsFirst(record, rest, after);
  }

  /** The names of a record in front of others. */
  lemma NamesFirst(record: TestResult, rest: seq<TestResult>)
    ensures Names([record] + rest) == [record.name] + Names(rest)
  {
  }

  /** The step of KeepsUnnamed over one more record in front. */
  lemma KeepsUnnamedFirst(before: map<string, TestResult>, record: TestResult, rest: seq<TestResult>, after: map<string, TestResult>)
    requires Names([record] + rest) == [record.name] + Names(rest)
    requires KeepsUnnamed(before[record.name := record], rest, after)
    ensures KeepsUnnamed(before, [record] + rest, after)
  {
    forall k | k in before && k !in Names([record] + rest)
      ensures k in after && after[k] == before[k]
    {
      assert k != record.name && k !in Names(rest);
    }
  }

  /** The step of LastWins over one more record in front. */
  lemma LastWinsFirst(record: TestResult, rest: seq<TestResult>, after: map<string, TestResult>)
    requires record.name !in Names(rest) ==> record.name in after && after[record.name] == record
    requires LastWins(rest, after)
    ensures LastWins([record] + rest, after)
  {
    var emitted := [record] + rest;
    forall i | 0 <= i < |emitted| && LastOfName(emitted, i)
      ensures emitted[i].name in after && after[emitted[i].name] == emitted[i]
    {
      if i == 0 {
        forall j | 0 <= j < |rest| ensures rest[j].name != record.name {
          assert emitted[j + 1] == rest[j];
        }
      } else {
        assert emitted[i] == rest[i - 1];
        forall j | i - 1 < j < |rest| ensures rest[j].name != rest[i - 1].name {
          assert emitted[j + 1] == rest[j];
        }
        assert LastOfName(rest, i - 1);
      }
    }
  }


  /** Tests without dependencies are all run, one record each, in declaration order. */
  lemma {:induction false} IndependentsAllRun(run: Run, tests: seq<Test>, execute: Executes)
    requires run.emitted == [] && KeepsNames(execute)
    requires forall t :: t in tests ==> t.dependsOn == []
    ensures Names(Sequential(run, tests, execute).emitted) == TestNames(tests)
    decreases |tests|
  {
    if tests != [] {
      var next := RunOne(run, tests[0], execute);
      AfterFirst(run, tests, execute);
      assert forall t :: t in tests[1..] ==> t in tests;
      IndependentsAllRun(next.(emitted := []), tests[1..], execute);
      assert TestNames(tests) == [tests[0].name] + TestNames(tests[1..]);
    }
  }

  /**
   * Declaration order decides, not dependencies: a test listed before the test it depends on
   * is skipped and never retried, when nothing is stored under that name yet.
   */
  lemma DependentListedFirstIsSkipped(run: Run, a: Test, b: Test, execute: Executes)
    requires run.emitted == [] && KeepsNames(execute)
    requires a.dependsOn == [] && b.dependsOn == [a.name] && a.name !in run.results
    ensures Names(Sequential(run, [b, a], execute).emitted) == [a.name]
  {
    assert !Ready(run.results, b);
    assert [b, a][1..] == [a] && [a][1..] == [];
    var next := RunOne(run, a, execute);
    assert Sequential(run, [b, a], execute) == Sequential(run, [a], execute);
    assert Sequential(run, [a], execute) == Sequential(next, [], execute) == next;
  }

  /** A test listed after its one dependency runs exactly when that dependency's record succeeded. */
  lemma DependencyGates(run: Run, a: Test, b: Test, execute: Executes)
    requires run.emitted == [] && a.dependsOn == [] && b.dependsOn == [a.name]
    ensures |Sequential(run, [a, b], execute).emitted| == if Recorded(execute(run.results, run.timeout, a)).success then 2 else 1
  {
    assert [a, b][1..] == [b] && [b][1..] == [];
    var next := RunOne(run, a, execute);
    assert Ready(next.results, b) <==> next.results[a.name].success;
    assert Sequential(run, [a, b], execute) == Sequential(next, [b], execute);
    if next.results[a.name].success {
      var last := RunOne(next, b, execute);
      assert Sequential(next, [b], execute) == Sequential(last, [], execute) == last;
    } else {
      assert Sequential(next, [b], execute) == Sequential(next, [], execute) == next;
    }
  }

  /** getIndependentTests and getDependentTests split the tests: every test goes to exactly one. */
  lemma {:induction false} FilteredPartition(tests: seq<Test>)
    ensures multiset(Filtered(tests, false)) + multiset(Filtered(tests, true)) == multiset(tests)
    decreases |tests|
  {
    if tests != [] {
      FilteredPartition(tests[..|tests| - 1]);
      assert tests == tests[..|tests| - 1] + [tests[|tests| - 1]];
    }
  }

  /**
   * In the parallel mode every independent test is run, and their records come first, one
   * per independent test in declaration order (before the final sort by name).
   */
  lemma ParallelRunsIndependentsFirst(run: Run, tests: seq<Test>, order: seq<Test>, execute: Executes)
    requires run.emitted == [] && KeepsNames(execute)
    ensures var independent := Filtered(tests, false);
      var out := ParallelRun(run, tests, order, execute);
      |independent| <= |out.emitted| && Names(out.emitted[..|independent|]) == TestNames(independent)
  {
    var independent := Filtered(tests, false);
    var middle := Sequential(run, independent, execute);
    IndependentsAllRun(run, independent, execute);
    SequentialShift(middle.emitted, middle.(emitted := []), order, execute);
    assert middle.(emitted := []).(emitted := middle.emitted) == middle;
    var out := ParallelRun(run, tests, order, execute);
    assert out.emitted[..|independent|] == middle.emitted;
  }
}
