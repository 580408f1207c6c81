/**
 * The "Update Headers Upon a 304" test suite: one hand-written test, then four generated tests
 * for each of sixteen response headers, each checking that a cache freshens that header from a
 * `304 Not Modified` (section 4.3.4 of RFC 7234).
 *
 * The helpers the generator calls but does not define are parameters, gathered in `Env`:
 * `httpContent` (a token derived from a seed string), `httpDate` (an HTTP date `offset`
 * seconds from a clock reading) and `clock` (the successive values of the wall clock).
 */
module Update304 {
  import opened Wrappers
  import opened Headers

  /**
   * `clock(k)` is the k-th reading of the wall clock while the suite is built: reading 0 for the
   * hand-written test, readings 1 and 2 for the `Expires` row of the table, and reading `3 + i`
   * in the generator call for row `i`.
   */
  datatype Env = Env(httpContent: string -> string, httpDate: (int, int) -> string, clock: nat -> int)

  /** The outcome categories a request may expect. */
  datatype ExpectedType =
    | Cached          // served from the cache, the origin not reached
    | NotCached       // the origin answered a plain request
    | LmValidate      // the cache sent a conditional request on `Last-Modified`
    | EtagValidate    // the cache sent a conditional request on `ETag`
    | LmValidated     // ... and the origin answered it with a 304
    | EtagValidated

  /** The two validators the generated tests revalidate with. */
  datatype Validator = LastModified | ETag {
    function HeaderName(): string
    {
      if LastModified? then "Last-Modified" else "ETag"
    }
    /** The id of the update-response test on this validator, less the header name. */
    function ResponseIdPrefix(): string
    {
      if LastModified? then "304-lm-update-response-" else "304-etag-update-response-"
    }
    /** The id of the update-stored test on this validator, less the header name. */
    function StoredIdPrefix(): string
    {
      if LastModified? then "304-lm-update-stored-" else "304-etag-update-stored-"
    }
    function Validated(): ExpectedType
    {
      if LastModified? then LmValidated else EtagValidated
    }
  }

  /**
   * One step of a test. A field the test object leaves out is `None`; `setup` and `pauseAfter`
   * left out are false, `setupTests` left out is empty.
   */
  datatype RequestSpec = RequestSpec(
    responseHeaders: Option<seq<Header>>,
    setup: bool,
    pauseAfter: bool,
    expectedType: Option<ExpectedType>,
    expectedResponseHeaders: Option<seq<Header>>,
    setupTests: seq<string>)

  datatype TestCase = TestCase(name: string, id: string, requests: seq<RequestSpec>)

  datatype Suite = Suite(name: string, id: string, description: string, tests: seq<TestCase>)

  /** A row of the generator's table: the header under test and, optionally, its two values. */
  datatype Args = Args(header: string, valueA: Option<string>, valueB: Option<string>)

  const Day: int := 24 * 60 * 60

  /** `v || fallback` on an argument that is a string or absent: absent and "" are falsy. */
  function Or(v: Option<string>, fallback: string): string
  {
    if v.Some? && v.value != "" then v.value else fallback
  }

  function ValueA(args: Args, env: Env): string
  {
    Or(args.valueA, env.httpContent(args.header + "-value-A"))
  }

  function ValueB(args: Args, env: Env): string
  {
    Or(args.valueB, env.httpContent(args.header + "-value-B"))
  }

  /** The strong entity tag the generator uses: the content token for the header, quoted. */
  function ETag1(header: string, env: Env): string
  {
    "\"" + env.httpContent(header + "-etag-1") + "\""
  }

  /** The `Last-Modified` date the generator uses: one day before the clock reading `now`. */
  function LastModified1(env: Env, now: int): string
  {
    env.httpDate(now, -Day)
  }

  function MaxAge(lifetime: nat): string
  {
    "max-age=" + Decimal(lifetime)
  }

  /**
   * The response headers of one step: a freshness slot, `Date: 0`, the validator and the header
   * under test. When the header under test is `Cache-Control` the freshness slot is the
   * placeholder `a: b`, so that the tested value is the only `Cache-Control` sent.
   */
  function MakeResponse(header: string, value: string, validatorType: string, validatorValue: string,
                        lifetime: nat): (r: seq<Header>)
    ensures |r| == 4
  {
    [
      if header == "Cache-Control" then Header("a", Text("b"))
      else Header("Cache-Control", Text(MaxAge(lifetime))),
      Header("Date", Offset(0)),
      Header(validatorType, Text(validatorValue)),
      Header(header, Text(value))
    ]
  }

  /** A step that stores a response and then waits, so that the stored response goes stale. */
  function StoreStep(headers: seq<Header>): RequestSpec
  {
    RequestSpec(Some(headers), true, true, None, None, [])
  }

  /** Checks that the response returned after revalidating on `v` carries `header: valueB`. */
  function UpdateResponseTest(v: Validator, header: string, valueA: string, valueB: string,
                              validator: string): TestCase
  {
    TestCase(
      "HTTP cache must update returned `" + header + "` from a `" + v.HeaderName() + " 304`",
      v.ResponseIdPrefix() + header,
      [
        StoreStep(MakeResponse(header, valueA, v.HeaderName(), validator, 1)),
        RequestSpec(Some(MakeResponse(header, valueB, v.HeaderName(), validator, 3600)),
                    false, false, Some(v.Validated()), Some([Header(header, Text(valueB))]),
                    ["expected_type"])
      ])
  }

  /** Checks that the response stored after revalidating on `v`, served later from the cache, carries `header: valueB`. */
  function UpdateStoredTest(v: Validator, header: string, valueA: string, valueB: string,
                            validator: string): TestCase
  {
    TestCase(
      "HTTP cache must update stored `" + header + "` from a `" + v.HeaderName() + " 304`",
      v.StoredIdPrefix() + header,
      [
        StoreStep(MakeResponse(header, valueA, v.HeaderName(), validator, 1)),
        RequestSpec(Some(MakeResponse(header, valueB, v.HeaderName(), validator, 3600)),
                    true, true, Some(v.Validated()), None, []),
        RequestSpec(None, false, false, Some(Cached), Some([Header(header, Text(valueB))]),
                    ["expected_type"])
      ])
  }

  /** The four tests one generator call appends, in the order it appends them; `now` is its clock reading. */
  function Check304Tests(args: Args, env: Env, now: int): (r: seq<TestCase>)
    ensures |r| == 4
    ensures forall t :: t in r ==> |t.requests| >= 2
  {
    var header := args.header;
    var valueA, valueB := ValueA(args, env), ValueB(args, env);
    var etag1, lm1 := ETag1(header, env), LastModified1(env, now);
    [
      UpdateResponseTest(LastModified, header, valueA, valueB, lm1),
      UpdateStoredTest(LastModified, header, valueA, valueB, lm1),
      UpdateResponseTest(ETag, header, valueA, valueB, etag1),
      UpdateStoredTest(ETag, header, valueA, valueB, etag1)
    ]
  }

  /** The hand-written first test: the 304 omits `Test-Header`, so the stored value must be returned. */
  function UseStoredTest(env: Env): TestCase
  {
    var header := "Test-Header";
    var valueA := env.httpContent(header + "-value-A");
    var lm1 := env.httpDate(env.clock(0), -Day);
    TestCase(
      "HTTP cache must return stored `" + header + "` from a `304` that omits it",
      "304-lm-use-stored-" + header,
      [
        StoreStep([Header("Cache-Control", Text("max-age=1")), Header("Last-Modified", Text(lm1)),
                   Header("Date", Offset(0)), Header(header, Text(valueA))]),
        RequestSpec(Some([Header("Cache-Control", Text("max-age=3600")), Header("Last-Modified", Text(lm1)),
                          Header("Date", Offset(0))]),
                    false, false, Some(LmValidated), Some([Header(header, Text(valueA))]),
                    ["expected_type"])
      ])
  }

  /** The table the generator runs over, one row per header under test. */
  function Table(env: Env): (t: seq<Args>)
    ensures |t| == 16
  {
    [
      Args("Test-Header", None, None),
      Args("X-Test-Header", None, None),
      Args("Content-Foo", None, None),
      Args("X-Content-Foo", None, None),
      Args("Content-Type", Some("text/plain"), Some("text/plain;charset=utf-8")),
      Args("Content-MD5", Some("rL0Y20zC+Fzt72VPzMSk2A=="), Some("N7UdGUp1E+RbVvZSTy1R8g==")),
      Args("Content-Location", Some("/foo"), Some("/bar")),
      Args("Content-Security-Policy", Some("default-src 'self'"), Some("default-src 'self' cdn.example.com")),
      Args("X-Frame-Options", Some("deny"), Some("sameorigin")),
      Args("X-XSS-Protection", Some("1"), Some("1; mode=block")),
      Args("Cache-Control", Some("max-age=1"), Some("max-age=3600")),
      Args("Expires", Some(env.httpDate(env.clock(1), 1)), Some(env.httpDate(env.clock(2), 3600))),
      Args("Clear-Site-Data", Some("cache"), Some("cookies")),
      Args("Public-Key-Pins", None, None),
      Args("Set-Cookie", Some("a=b"), Some("a=c")),
      Args("Set-Cookie2", Some("a=b"), Some("a=c"))
    ]
  }

  /** The clock reading taken by the generator call on table row `i`. */
  function CallClock(env: Env, i: nat): int
  {
    env.clock(3 + i)
  }

  /**
   * The tests the generator appends for the first `n` rows of `rows`, taken as the first rows of
   * the table: position `4 * a + k` holds test `k` of the call on row `a`.
   */
  function GeneratedUpTo(rows: seq<Args>, n: nat, env: Env): (r: seq<TestCase>)
    requires n <= |rows|
    ensures |r| == 4 * n
  {
    seq(4 * n, j requires 0 <= j < 4 * n => Check304Tests(rows[j / 4], env, CallClock(env, j / 4))[j % 4])
  }

  /** The tests the generator appends for all of `rows`. */
  function Generated(rows: seq<Args>, env: Env): (r: seq<TestCase>)
    ensures |r| == 4 * |rows|
  {
    GeneratedUpTo(rows, |rows|, env)
  }

  lemma GeneratedIndex(rows: seq<Args>, env: Env, j: nat)
    requires j < 4 * |rows|
    ensures Generated(rows, env)[j] == Check304Tests(rows[j / 4], env, CallClock(env, j / 4))[j % 4]
  {
  }

  /** Where position `j` falls relative to the first `4 * i` positions. */
  lemma DivFour(j: nat, i: nat)
    ensures 4 * i <= j < 4 * i + 4 ==> j / 4 == i && j % 4 == j - 4 * i
  {
  }

  /** One more row generates the previous rows' tests followed by that row's four. */
  lemma GeneratedStep(rows: seq<Args>, i: nat, env: Env)
    requires i < |rows|
    ensures GeneratedUpTo(rows, i + 1, env) == GeneratedUpTo(rows, i, env) + Check304Tests(rows[i], env, CallClock(env, i))
  {
    var longer, shorter := GeneratedUpTo(rows, i + 1, env), GeneratedUpTo(rows, i, env);
    var added := Check304Tests(rows[i], env, CallClock(env, i));
    forall j | 0 <= j < |longer| ensures longer[j] == (shorter + added)[j] {
      if 4 * i <= j {
        DivFour(j, i);
      }
    }
  }

  const SuiteName: string := "Update Headers Upon a 304"
  const SuiteId: string := "update304"
  const SuiteDescription: string :=
    "These tests check cache behaviour upon recieving a `304 Not Modified` response. "
    + "See the [relevant specification section](https://httpwg.org/specs/rfc7234.html#freshening.responses), "
    + "and [this issue](https://github.com/httpwg/http-core/issues/165) for relevant discussion."

  /** The suite the module exports. */
  function Update304Suite(env: Env): Suite
  {
    Suite(SuiteName, SuiteId, SuiteDescription, [UseStoredTest(env)] + Generated(Table(env), env))
  }

  /** The module-level list of tests, which the module pushes onto while it loads. */
  class TestList {
    var tests: seq<TestCase>

    constructor ()
      ensures tests == []
    {
      tests := [];
    }

    method Push(t: TestCase)
      modifies this
      ensures tests == old(tests) + [t]
    {
      tests := tests + [t];
    }

    /** The generator: appends the four tests for one table row and leaves the earlier ones alone. */
    method Check304(args: Args, env: Env, now: int)
      modifies this
      ensures tests == old(tests) + Check304Tests(args, env, now)
      ensures |tests| == |old(tests)| + 4 && tests[..|old(tests)|] == old(tests)
    {
      var header := args.header;
      var valueA := ValueA(args, env);
      var valueB := ValueB(args, env);
      var etag1 := ETag1(header, env);
      var lm1 := LastModified1(env, now);
      ghost var start := tests;
      var t0 := UpdateResponseTest(LastModified, header, valueA, valueB, lm1);
      var t1 := UpdateStoredTest(LastModified, header, valueA, valueB, lm1);
      var t2 := UpdateResponseTest(ETag, header, valueA, valueB, etag1);
      var t3 := UpdateStoredTest(ETag, header, valueA, valueB, etag1);
      Push(t0);
      Push(t1);
      assert tests == start + [t0, t1];
      Push(t2);
      assert tests == start + [t0, t1, t2];
      Push(t3);
      assert tests == start + [t0, t1, t2, t3];
      assert Check304Tests(args, env, now) == [t0, t1, t2, t3];
    }
  }

  lemma AppendAssociates<T>(a: seq<T>, b: seq<T>, c: seq<T>)
    ensures a + b + c == a + (b + c)
  {
  }

  /** The `forEach` over the table: runs the generator on each row in order. */
  method GenerateAll(list: TestList, rows: seq<Args>, env: Env)
    modifies list
    ensures list.tests == old(list.tests) + Generated(rows, env)
  {
    ghost var start := list.tests;
    for i := 0 to |rows|
      invariant list.tests == start + GeneratedUpTo(rows, i, env)
      invariant |list.tests| == |start| + 4 * i
    {
      ghost var done := GeneratedUpTo(rows, i, env);
      list.Check304(rows[i], env, CallClock(env, i));
      GeneratedStep(rows, i, env);
      AppendAssociates(start, done, Check304Tests(rows[i], env, CallClock(env, i)));
    }
  }

  /** Module initialisation: push the hand-written test, run the generator over the table, export the suite. */
  method LoadSuite(env: Env) returns (suite: Suite)
    ensures suite == Update304Suite(env)
    ensures |suite.tests| == 65
  {
    var list := new TestList();
    list.Push(UseStoredTest(env));
    GenerateAll(list, Table(env), env);
    suite := Suite(SuiteName, SuiteId, SuiteDescription, list.tests);
  }

}
