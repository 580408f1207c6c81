/**
 * What the update304 suite promises about the tests it builds: the responses each step sends,
 * the shape and order of the generated tests, that every expectation follows from freshening
 * the stored response with the 304, and that the test ids are distinct.
 */
module Update304Properties {
  import opened Wrappers
  import opened Headers
  import opened Freshening
  import opened Update304

  // ---- The responses a step sends ----

  /** The values step `r` has the origin send for `name`; none when the step declares no response. */
  function Sent(r: RequestSpec, name: string): seq<HeaderValue>
  {
    if r.responseHeaders.Some? then ValuesOf(r.responseHeaders.value, name) else []
  }

  /** A header under test that does not clash with the fixed pairs of a generated response. */
  predicate PlainHeader(header: string)
  {
    header != "Date" && header != "Last-Modified" && header != "ETag"
  }

  lemma MaxAgeValues()
    ensures MaxAge(1) == "max-age=1" && MaxAge(3600) == "max-age=3600"
  {
    assert Decimal(3) == "3";
    assert Decimal(36) == "36";
    assert Decimal(360) == "360";
    assert Decimal(3600) == "3600";
  }

  /**
   * Every value a generated response sends, by header name: the tested value under the tested
   * header, the validator under its name, `max-age=<lifetime>` under `Cache-Control` unless
   * `Cache-Control` is the header under test, `Date: 0`, and nothing else but the placeholder.
   * In particular exactly one `Cache-Control` is ever sent.
   */
  lemma MakeResponseValues(header: string, value: string, validatorType: string, validatorValue: string,
                           lifetime: nat, name: string)
    requires PlainHeader(header)
    requires validatorType == "Last-Modified" || validatorType == "ETag"
    ensures ValuesOf(MakeResponse(header, value, validatorType, validatorValue, lifetime), name) ==
      if name == header then [Text(value)]
      else if name == validatorType then [Text(validatorValue)]
      else if name == "Cache-Control" then [Text(MaxAge(lifetime))]
      else if name == "Date" then [Offset(0)]
      else if name == "a" && header == "Cache-Control" then [Text("b")]
      else []
  {
    var r := MakeResponse(header, value, validatorType, validatorValue, lifetime);
    ValuesOfFour(r[0], r[1], r[2], r[3], name);
    assert r == [r[0], r[1], r[2], r[3]];
  }

  // ---- The shape of every test in the suite ----

  /** A step expecting a revalidation on one validator sends exactly that validator. */
  predicate ValidatorAgrees(r: RequestSpec)
  {
    && (r.expectedType == Some(LmValidated) ==> |Sent(r, "Last-Modified")| == 1 && Sent(r, "ETag") == [])
    && (r.expectedType == Some(EtagValidated) ==> |Sent(r, "ETag")| == 1 && Sent(r, "Last-Modified") == [])
  }

  /** Whether the headers a step expects are what freshening `stored` with the 304 `update` gives. */
  predicate ExpectsFreshened(expected: seq<Header>, stored: seq<Header>, update: seq<Header>)
  {
    forall e :: e in expected ==> ValuesOf(Freshen(stored, update), e.name) == [e.value]
  }

  /**
   * The shape every test of the suite has: a first step that stores a response fresh for one
   * second and then waits; a second step whose response, fresh for an hour, carries the same
   * validator and expects a revalidation on it; every step expecting a revalidation sends the
   * matching validator; and the last step checks the expected type and expects exactly the
   * headers that freshening the stored response with the second response yields.
   */
  predicate FresheningTest(t: TestCase)
  {
    && |t.requests| >= 2
    && var store, revalidate, last := t.requests[0], t.requests[1], t.requests[|t.requests| - 1];
    && store.setup && store.pauseAfter
    && store.responseHeaders.Some? && revalidate.responseHeaders.Some?
    && Sent(store, "Cache-Control") == [Text("max-age=1")]
    && Sent(revalidate, "Cache-Control") == [Text("max-age=3600")]
    && Sent(store, "Last-Modified") == Sent(revalidate, "Last-Modified")
    && Sent(store, "ETag") == Sent(revalidate, "ETag")
    && (revalidate.expectedType == Some(LmValidated) || revalidate.expectedType == Some(EtagValidated))
    && (forall i :: 0 <= i < |t.requests| ==> ValidatorAgrees(t.requests[i]))
    && last.setupTests == ["expected_type"]
    && last.expectedResponseHeaders.Some?
    && ExpectsFreshened(last.expectedResponseHeaders.value, store.responseHeaders.value,
                        revalidate.responseHeaders.value)
  }

  /** The values that make the `Cache-Control` row send the same lifetimes as every other row. */
  predicate LifetimeValues(header: string, valueA: string, valueB: string)
  {
    header == "Cache-Control" ==> valueA == "max-age=1" && valueB == "max-age=3600"
  }

  /** What a generated response sends for the names the suite's expectations look at. */
  lemma ResponseSends(header: string, value: string, v: Validator, validatorValue: string, lifetime: nat)
    requires PlainHeader(header)
    ensures var r := MakeResponse(header, value, v.HeaderName(), validatorValue, lifetime);
            && ValuesOf(r, header) == [Text(value)]
            && ValuesOf(r, v.HeaderName()) == [Text(validatorValue)]
            && ValuesOf(r, "Cache-Control") == [Text(if header == "Cache-Control" then value else MaxAge(lifetime))]
            && ValuesOf(r, "Last-Modified") == (if v.LastModified? then [Text(validatorValue)] else [])
            && ValuesOf(r, "ETag") == (if v.ETag? then [Text(validatorValue)] else [])
            && header in Names(r)
  {
    var r := MakeResponse(header, value, v.HeaderName(), validatorValue, lifetime);
    MakeResponseValues(header, value, v.HeaderName(), validatorValue, lifetime, header);
    MakeResponseValues(header, value, v.HeaderName(), validatorValue, lifetime, v.HeaderName());
    MakeResponseValues(header, value, v.HeaderName(), validatorValue, lifetime, "Cache-Control");
    MakeResponseValues(header, value, v.HeaderName(), validatorValue, lifetime, "Last-Modified");
    MakeResponseValues(header, value, v.HeaderName(), validatorValue, lifetime, "ETag");
    assert r[3] in r;
  }

  /** The stored response and the 304 of a generated test, as the test's steps declare them. */
  lemma RevalidationPair(v: Validator, header: string, valueA: string, valueB: string, validator: string)
    requires PlainHeader(header) && LifetimeValues(header, valueA, valueB)
    ensures var store := StoreStep(MakeResponse(header, valueA, v.HeaderName(), validator, 1));
            var update := MakeResponse(header, valueB, v.HeaderName(), validator, 3600);
            && Sent(store, header) == [Text(valueA)]
            && ValuesOf(update, header) == [Text(valueB)]
            && Sent(store, v.HeaderName()) == ValuesOf(update, v.HeaderName()) == [Text(validator)]
            && Sent(store, "Cache-Control") == [Text("max-age=1")]
            && ValuesOf(update, "Cache-Control") == [Text("max-age=3600")]
            && Sent(store, "Last-Modified") == ValuesOf(update, "Last-Modified")
            && Sent(store, "ETag") == ValuesOf(update, "ETag")
            && (v.LastModified? ==> |ValuesOf(update, "Last-Modified")| == 1 && ValuesOf(update, "ETag") == [])
            && (v.ETag? ==> |ValuesOf(update, "ETag")| == 1 && ValuesOf(update, "Last-Modified") == [])
  {
    MaxAgeValues();
    ResponseSends(header, valueA, v, validator, 1);
    ResponseSends(header, valueB, v, validator, 3600);
  }

  /** Freshening the stored response with the 304 yields the 304's value for the header under test. */
  lemma RevalidationFreshened(v: Validator, header: string, valueA: string, valueB: string, validator: string)
    requires PlainHeader(header)
    ensures ExpectsFreshened([Header(header, Text(valueB))],
                             MakeResponse(header, valueA, v.HeaderName(), validator, 1),
                             MakeResponse(header, valueB, v.HeaderName(), validator, 3600))
  {
    var stored := MakeResponse(header, valueA, v.HeaderName(), validator, 1);
    var update := MakeResponse(header, valueB, v.HeaderName(), validator, 3600);
    ResponseSends(header, valueB, v, validator, 3600);
    assert ValuesOf(Freshen(stored, update), header) == ValuesOf(update, header);
  }

  /**
   * A stored response, fresh for one second, and a 304, fresh for an hour, that send the same
   * validators, the 304 exactly one of kind `v` and none of the other kind.
   */
  predicate PairAgrees(v: Validator, stored: seq<Header>, update: seq<Header>)
  {
    && ValuesOf(stored, "Cache-Control") == [Text("max-age=1")]
    && ValuesOf(update, "Cache-Control") == [Text("max-age=3600")]
    && ValuesOf(stored, "Last-Modified") == ValuesOf(update, "Last-Modified")
    && ValuesOf(stored, "ETag") == ValuesOf(update, "ETag")
    && (v.LastModified? ==> |ValuesOf(update, "Last-Modified")| == 1 && ValuesOf(update, "ETag") == [])
    && (v.ETag? ==> |ValuesOf(update, "ETag")| == 1 && ValuesOf(update, "Last-Modified") == [])
  }

  /**
   * A test is a freshening test when its first step stores `stored`, its second revalidates on
   * `v` with `update`, any third step expects a cache hit, its last step expects `expected`, and
   * the two responses agree as the suite's responses do.
   */
  lemma StepsFreshen(t: TestCase, v: Validator, stored: seq<Header>, update: seq<Header>, expected: seq<Header>)
    requires 2 <= |t.requests| <= 3
    requires t.requests[0] == StoreStep(stored)
    requires t.requests[1].responseHeaders == Some(update) && t.requests[1].expectedType == Some(v.Validated())
    requires |t.requests| == 3 ==> t.requests[2].expectedType == Some(Cached)
    requires t.requests[|t.requests| - 1].setupTests == ["expected_type"]
    requires t.requests[|t.requests| - 1].expectedResponseHeaders == Some(expected)
    requires PairAgrees(v, stored, update)
    requires ExpectsFreshened(expected, stored, update)
    ensures FresheningTest(t)
  {
    var rs := t.requests;
    forall i | 0 <= i < |rs| ensures ValidatorAgrees(rs[i]) {
      assert i == 0 || i == 1 || i == 2;
    }
  }

  /** The two responses of every generated test agree, and freshening gives the expected header. */
  lemma GeneratedPairAgrees(v: Validator, header: string, valueA: string, valueB: string, validator: string)
    requires PlainHeader(header) && LifetimeValues(header, valueA, valueB)
    ensures var stored := MakeResponse(header, valueA, v.HeaderName(), validator, 1);
            var update := MakeResponse(header, valueB, v.HeaderName(), validator, 3600);
            PairAgrees(v, stored, update) && ExpectsFreshened([Header(header, Text(valueB))], stored, update)
  {
    RevalidationPair(v, header, valueA, valueB, validator);
    RevalidationFreshened(v, header, valueA, valueB, validator);
  }

  /** The "update-response" test is a freshening test. */
  lemma UpdateResponseFreshens(v: Validator, header: string, valueA: string, valueB: string, validator: string)
    requires PlainHeader(header) && LifetimeValues(header, valueA, valueB)
    ensures FresheningTest(UpdateResponseTest(v, header, valueA, valueB, validator))
  {
    var stored := MakeResponse(header, valueA, v.HeaderName(), validator, 1);
    var update := MakeResponse(header, valueB, v.HeaderName(), validator, 3600);
    GeneratedPairAgrees(v, header, valueA, valueB, validator);
    StepsFreshen(UpdateResponseTest(v, header, valueA, valueB, validator), v, stored, update,
                 [Header(header, Text(valueB))]);
  }

  /** The "update-response" test: store, then one revalidation whose response must carry the new value. */
  lemma UpdateResponseShape(v: Validator, header: string, valueA: string, valueB: string, validator: string)
    requires PlainHeader(header) && LifetimeValues(header, valueA, valueB)
    ensures var t := UpdateResponseTest(v, header, valueA, valueB, validator);
            && FresheningTest(t)
            && |t.requests| == 2
            && t.requests[0].setup && t.requests[0].pauseAfter
            && t.requests[1].expectedType == Some(v.Validated())
            && t.requests[1].expectedResponseHeaders == Some([Header(header, Text(valueB))])
            && t.requests[1].setupTests == ["expected_type"]
            && Sent(t.requests[0], header) == [Text(valueA)]
            && Sent(t.requests[1], header) == [Text(valueB)]
            && Sent(t.requests[0], v.HeaderName()) == Sent(t.requests[1], v.HeaderName()) == [Text(validator)]
  {
    RevalidationPair(v, header, valueA, valueB, validator);
    UpdateResponseFreshens(v, header, valueA, valueB, validator);
  }

  /** The "update-stored" test is a freshening test. */
  lemma UpdateStoredFreshens(v: Validator, header: string, valueA: string, valueB: string, validator: string)
    requires PlainHeader(header) && LifetimeValues(header, valueA, valueB)
    ensures FresheningTest(UpdateStoredTest(v, header, valueA, valueB, validator))
  {
    var stored := MakeResponse(header, valueA, v.HeaderName(), validator, 1);
    var update := MakeResponse(header, valueB, v.HeaderName(), validator, 3600);
    GeneratedPairAgrees(v, header, valueA, valueB, validator);
    var t := UpdateStoredTest(v, header, valueA, valueB, validator);
    var expected := [Header(header, Text(valueB))];
    assert t.requests == [StoreStep(stored),
                          RequestSpec(Some(update), true, true, Some(v.Validated()), None, []),
                          RequestSpec(None, false, false, Some(Cached), Some(expected), ["expected_type"])];
    StepsFreshen(t, v, stored, update, expected);
  }

  /**
   * The "update-stored" test: store, revalidate as a setup step and wait, then a third step
   * served from the cache must carry the new value.
   */
  lemma UpdateStoredShape(v: Validator, header: string, valueA: string, valueB: string, validator: string)
    requires PlainHeader(header) && LifetimeValues(header, valueA, valueB)
    ensures var t := UpdateStoredTest(v, header, valueA, valueB, validator);
            && FresheningTest(t)
            && |t.requests| == 3
            && t.requests[1].setup && t.requests[1].pauseAfter
            && t.requests[1].expectedType == Some(v.Validated())
            && t.requests[2].responseHeaders == None
            && t.requests[2].expectedType == Some(Cached)
            && t.requests[2].expectedResponseHeaders == Some([Header(header, Text(valueB))])
            && Sent(t.requests[0], header) == [Text(valueA)]
            && Sent(t.requests[1], header) == [Text(valueB)]
            && Sent(t.requests[0], v.HeaderName()) == Sent(t.requests[1], v.HeaderName()) == [Text(validator)]
  {
    RevalidationPair(v, header, valueA, valueB, validator);
    UpdateStoredFreshens(v, header, valueA, valueB, validator);
  }

  /** What the two responses of the hand-written test send: the second omits `Test-Header`. */
  lemma UseStoredSends(env: Env)
    ensures var t := UseStoredTest(env);
            var stored, update := t.requests[0].responseHeaders.value, t.requests[1].responseHeaders.value;
            var lm1 := env.httpDate(env.clock(0), -Day);
            && ValuesOf(stored, "Test-Header") == [Text(env.httpContent("Test-Header-value-A"))]
            && ValuesOf(update, "Test-Header") == []
            && ValuesOf(stored, "Cache-Control") == [Text("max-age=1")]
            && ValuesOf(update, "Cache-Control") == [Text("max-age=3600")]
            && ValuesOf(stored, "Last-Modified") == ValuesOf(update, "Last-Modified") == [Text(lm1)]
            && ValuesOf(stored, "ETag") == ValuesOf(update, "ETag") == []
            && "Test-Header" !in Names(update)
  {
    var t := UseStoredTest(env);
    var stored, update := t.requests[0].responseHeaders.value, t.requests[1].responseHeaders.value;
    TestHeaderValueName();
    ValuesOfFour(stored[0], stored[1], stored[2], stored[3], "Test-Header");
    ValuesOfFour(stored[0], stored[1], stored[2], stored[3], "Cache-Control");
    ValuesOfFour(stored[0], stored[1], stored[2], stored[3], "Last-Modified");
    ValuesOfFour(stored[0], stored[1], stored[2], stored[3], "ETag");
    ValuesOfThree(update[0], update[1], update[2], "Test-Header");
    ValuesOfThree(update[0], update[1], update[2], "Cache-Control");
    ValuesOfThree(update[0], update[1], update[2], "Last-Modified");
    ValuesOfThree(update[0], update[1], update[2], "ETag");
  }

  /** The two responses of the hand-written test agree, and freshening keeps the stored `Test-Header`. */
  lemma UseStoredPairAgrees(env: Env)
    ensures var t := UseStoredTest(env);
            var stored, update := t.requests[0].responseHeaders.value, t.requests[1].responseHeaders.value;
            && PairAgrees(LastModified, stored, update)
            && ExpectsFreshened(t.requests[1].expectedResponseHeaders.value, stored, update)
  {
    var t := UseStoredTest(env);
    var stored, update := t.requests[0].responseHeaders.value, t.requests[1].responseHeaders.value;
    UseStoredSends(env);
    TestHeaderValueName();
    FreshenKeeps(stored, update, "Test-Header");
  }

  lemma TestHeaderValueName()
    ensures "Test-Header" + "-value-A" == "Test-Header-value-A"
  {
  }

  /** The hand-written test is a freshening test. */
  lemma UseStoredFreshens(env: Env)
    ensures FresheningTest(UseStoredTest(env))
  {
    var t := UseStoredTest(env);
    var stored, update := t.requests[0].responseHeaders.value, t.requests[1].responseHeaders.value;
    UseStoredPairAgrees(env);
    StepsFreshen(t, LastModified, stored, update, t.requests[1].expectedResponseHeaders.value);
  }

  /** The hand-written test: its 304 omits `Test-Header`, so the stored value is the one expected. */
  lemma UseStoredShape(env: Env)
    ensures var t := UseStoredTest(env);
            var valueA := env.httpContent("Test-Header-value-A");
            && FresheningTest(t)
            && t.id == "304-lm-use-stored-Test-Header"
            && |t.requests| == 2
            && Sent(t.requests[0], "Test-Header") == [Text(valueA)]
            && Sent(t.requests[1], "Test-Header") == []
            && t.requests[1].expectedType == Some(LmValidated)
            && t.requests[1].expectedResponseHeaders == Some([Header("Test-Header", Text(valueA))])
  {
    UseStoredSends(env);
    UseStoredFreshens(env);
    TestHeaderValueName();
    UseStoredIdName();
  }

  lemma UseStoredIdName()
    ensures "304-lm-use-stored-" + "Test-Header" == "304-lm-use-stored-Test-Header"
  {
  }

  /** The ids the first two generated tests get. */
  lemma LastModifiedIds(args: Args, env: Env, now: int)
    ensures var ts := Check304Tests(args, env, now);
            && ts[0].id == "304-lm-update-response-" + args.header
            && ts[1].id == "304-lm-update-stored-" + args.header
  {
    var ts := Check304Tests(args, env, now);
    var valueA, valueB, lm1 := ValueA(args, env), ValueB(args, env), LastModified1(env, now);
    assert ts[0] == UpdateResponseTest(LastModified, args.header, valueA, valueB, lm1);
    assert ts[1] == UpdateStoredTest(LastModified, args.header, valueA, valueB, lm1);
  }

  /** The ids the last two generated tests get. */
  lemma ETagIds(args: Args, env: Env, now: int)
    ensures var ts := Check304Tests(args, env, now);
            && ts[2].id == "304-etag-update-response-" + args.header
            && ts[3].id == "304-etag-update-stored-" + args.header
  {
    var ts := Check304Tests(args, env, now);
    var valueA, valueB, etag1 := ValueA(args, env), ValueB(args, env), ETag1(args.header, env);
    assert ts[2] == UpdateResponseTest(ETag, args.header, valueA, valueB, etag1);
    assert ts[3] == UpdateStoredTest(ETag, args.header, valueA, valueB, etag1);
  }

}
