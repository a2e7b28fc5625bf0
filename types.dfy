/**
 * The records of types.go (TestSuite, Test, Assertion, TestResult), the structured form of
 * the error messages the engine produces, and the foreign libraries it calls, which the
 * model takes as given functions.
 */
module Types {
  import opened Wrappers
  import opened Values

  /** One check on a response (types.go:27-32). `expected` is whatever YAML decoded. */
  datatype Assertion = Assertion(kind: string, path: string, expected: Value, operator: string)

  /** One HTTP test (types.go:14-25). `timeout` is a time.Duration in nanoseconds. */
  datatype Test = Test(
    name: string,
    httpMethod: string,
    url: string,
    headers: map<string, string>,
    body: string,
    bodyFile: string,
    timeout: int,
    assertions: seq<Assertion>,
    extract: map<string, string>,
    dependsOn: seq<string>)

  /** A whole suite (types.go:5-12); `variables` is None when the YAML has no `variables`. */
  datatype TestSuite = TestSuite(
    name: string,
    baseURL: string,
    variables: Option<map<string, string>>,
    tests: seq<Test>,
    parallel: bool,
    maxWorkers: int)

  /**
   * The outcome of one test (types.go:34-43). `duration` is in nanoseconds; `error` is the
   * message Go stores as a string, NoFailure standing for "". `variables` is None for a nil map.
   */
  datatype TestResult = TestResult(
    name: string,
    success: bool,
    statusCode: int,
    duration: nat,
    response: string,
    headers: map<string, seq<string>>,
    error: Failure,
    variables: Option<map<string, string>>)

  /** The comparison a failed check expected. */
  datatype Relation = Equal | NotEqual | Greater | Less | Substring | NotSubstring

  /** Errors of the JSON path walk (assertions.go:267-310, extractor.go:140-182). */
  datatype PathError =
    | InvalidArrayIndex(indexText: string)
    | ExpectedObject(key: string)
    | ExpectedArray(index: int)
    | IndexOutOfBounds(index: int)

  /** The messages of assertions.go, one constructor per fmt.Errorf. */
  datatype AssertionError =
    | UnknownAssertionType(kind: string)
    | InvalidStatusCodeFormat(text: string)
    | StatusCodeNotInteger
    | StatusCodeFailed(relation: Relation, expectedStatus: int, actualStatus: int)
    | UnsupportedStatusOperator(operator: string)
    | JsonParseFailed(cause: string)
    | JsonPathFailed(path: string, pathError: PathError)
    | HtmlParseFailed(cause: string)
    | HeaderNotFound(name: string)
    | CompareFailed(context: string, relation: Relation, expected: Value, actual: Value)
    | UnsupportedOperator(operator: string)
    | BodyExpectedNotString
    | BodyMissingText(text: string)
    | BodyHasText(text: string)
    | UnsupportedBodyOperator(operator: string)
    | RegexExpectedNotString
    | InvalidRegex(cause: string)
    | RegexNoMatch(pattern: string)
    | RegexUnexpectedMatch(pattern: string)
    | UnsupportedRegexOperator(operator: string)
    | InvalidResponseTimeFormat(text: string)
    | ResponseTimeNotInteger
    | ResponseTimeFailed(relation: Relation, expectedMs: int, actualMs: int)
    | UnsupportedResponseTimeOperator(operator: string)

  /** Why one extraction rule failed (extractor.go:38-117). */
  datatype ExtractCause =
    | InvalidExpression(expression: string)
    | UnsupportedExtractor(extractor: string)
    | JsonParse(cause: string)
    | Path(pathError: PathError)
    | HeaderMissing(name: string)
    | RegexInvalid(cause: string)
    | RegexDidNotMatch
    | HtmlParse(cause: string)
    | CssNoMatch

  /** "failed to extract variable <name>: <cause>" (extractor.go:30). */
  datatype ExtractError = ExtractError(variable: string, cause: ExtractCause)

  /** The texts stored in TestResult.Error and returned as Go errors by the client and the executor. */
  datatype Failure =
    | NoFailure
    | BothBodies
    | BodyFileUnreadable(path: string, cause: string)
    | CreateRequestFailed(cause: string)
    | RequestFailed(cause: string)
    | ReadBodyFailed(cause: string)
    | Cause(cause: string)
    | ExtractionFailed(extractError: ExtractError)
    | Extraction(extractError: ExtractError)
    | AssertionsFailed(errors: seq<AssertionError>)

  /**
   * The libraries the engine calls, as given functions:
   * decodeJson (encoding/json into interface{}), regexError (regexp.Compile's error, None
   * when the pattern compiles), regexMatches (MatchString), regexSubmatch
   * (FindStringSubmatch: empty when there is no match, else the match then its groups),
   * htmlSelect (goquery: the trimmed text of each element the selector finds, or the
   * parse error), floatText (%v of a float64 that is not a small whole number) and
   * fixed2 (%.2f).
   */
  datatype Libraries = Libraries(
    decodeJson: string -> Result<Value, string>,
    regexError: string -> Option<string>,
    regexMatches: (string, string) -> bool,
    regexSubmatch: (string, string) -> seq<string>,
    htmlSelect: (string, string) -> Result<seq<string>, string>,
    floatText: real -> string,
    fixed2: real -> string)
}
