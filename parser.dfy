/**
 * Suite loading (parser.go): after YAML decoding, a non-positive `max_workers` is replaced
 * by the default pool size. The YAML decode itself is given as its result.
 */
module Parser {
  import opened Wrappers
  import opened Types

  const DefaultMaxWorkers: int := 10

  /** The prefix yaml decode errors are wrapped in. */
  const ParseErrorPrefix: string := "failed to parse YAML: "

  /** The pool size a suite ends up with. */
  function DefaultWorkers(requested: int): (n: int)
    ensures n >= 1
    ensures requested > 0 ==> n == requested
    ensures requested <= 0 ==> n == DefaultMaxWorkers
  {
    if requested <= 0 then DefaultMaxWorkers else requested
  }

  /**
   * ParseTestSuiteFromString and the tail of ParseTestSuite: `decoded` is what yaml.Unmarshal
   * produced (or its error). A decode error is wrapped; otherwise only MaxWorkers changes.
   */
  method ParseTestSuiteFromString(decoded: Result<TestSuite, string>) returns (r: Result<TestSuite, string>)
    ensures r.Err? <==> decoded.Err?
    ensures decoded.Err? ==> r.error == ParseErrorPrefix + decoded.error
    ensures decoded.Ok? ==> r.value == decoded.value.(maxWorkers := DefaultWorkers(decoded.value.maxWorkers))
  {
    if decoded.Err? {
      return Err(ParseErrorPrefix + decoded.error);
    }
    var suite := decoded.value;
    if suite.maxWorkers <= 0 {
      suite := suite.(maxWorkers := DefaultMaxWorkers);
    }
    return Ok(suite);
  }
}
