/**
 * Properties of the whole exported suite: where each generated test sits, that every one of the
 * 65 tests is a freshening test, and that no two tests share an id.
 */
module SuiteProperties {
  import opened Wrappers
  import opened Headers
  import opened Update304
  import opened Update304Properties

  /** Test `k` of the generator call on row `a` sits at position `4 * a + k` of the generated tests. */
  lemma GeneratedAt(rows: seq<Args>, env: Env, a: nat, k: nat)
    requires a < |rows| && k < 4
    ensures 4 * a + k < |Generated(rows, env)|
    ensures Generated(rows, env)[4 * a + k] == Check304Tests(rows[a], env, CallClock(env, a))[k]
  {
    DivModFour(a, k);
    GeneratedIndex(rows, env, 4 * a + k);
  }

  lemma DivModFour(a: nat, k: nat)
    requires k < 4
    ensures (4 * a + k) / 4 == a && (4 * a + k) % 4 == k
  {
  }

  /** A table row the generator turns into freshening tests. */
  predicate RowOk(row: Args)
  {
    && PlainHeader(row.header)
    && (row.header == "Cache-Control" ==> row.valueA == Some("max-age=1") && row.valueB == Some("max-age=3600"))
  }

  /** Every row of the table is one. */
  lemma TableRowsOk(env: Env)
    ensures forall row :: row in Table(env) ==> RowOk(row)
  {
  }

  /** The sixteen headers under test are distinct. */
  lemma TableHeadersDistinct(env: Env)
    ensures forall i, j :: 0 <= i < j < |Table(env)| ==> Table(env)[i].header != Table(env)[j].header
  {
  }

  /** All four tests of a generator call on a well-formed row are freshening tests. */
  lemma Check304Freshens(args: Args, env: Env, now: int, k: nat)
    requires RowOk(args) && k < 4
    ensures FresheningTest(Check304Tests(args, env, now)[k])
  {
    var header, valueA, valueB := args.header, ValueA(args, env), ValueB(args, env);
    assert LifetimeValues(header, valueA, valueB);
    var etag1, lm1 := ETag1(header, env), LastModified1(env, now);
    var ts := Check304Tests(args, env, now);
    assert ts == [UpdateResponseTest(LastModified, header, valueA, valueB, lm1),
                  UpdateStoredTest(LastModified, header, valueA, valueB, lm1),
                  UpdateResponseTest(ETag, header, valueA, valueB, etag1),
                  UpdateStoredTest(ETag, header, valueA, valueB, etag1)];
    if k == 0 {
      UpdateResponseFreshens(LastModified, header, valueA, valueB, lm1);
    } else if k == 1 {
      UpdateStoredFreshens(LastModified, header, valueA, valueB, lm1);
    } else if k == 2 {
      UpdateResponseFreshens(ETag, header, valueA, valueB, etag1);
    } else {
      UpdateStoredFreshens(ETag, header, valueA, valueB, etag1);
    }
  }

  /**
   * What one generator call puts in test `k`, in terms of its inputs: the stored response sends
   * the row's first value (or, when the row gives none or an empty one, the content token for
   * `<header>-value-A`), the 304 sends the second value (likewise), both send the same validator
   * (for the first two tests a `Last-Modified` one day before the call's clock reading, for the
   * last two the quoted content token for `<header>-etag-1`), the revalidation expects the
   * matching outcome, and the last step expects the second value.
   */
  lemma Check304Values(args: Args, env: Env, now: int, k: nat)
    requires PlainHeader(args.header) && k < 4
    ensures var t := Check304Tests(args, env, now)[k];
            var header := args.header;
            var valueA := if args.valueA.Some? && args.valueA.value != "" then args.valueA.value
                          else env.httpContent(header + "-value-A");
            var valueB := if args.valueB.Some? && args.valueB.value != "" then args.valueB.value
                          else env.httpContent(header + "-value-B");
            var validatorName := if k < 2 then "Last-Modified" else "ETag";
            var validator := if k < 2 then env.httpDate(now, -86400)
                             else "\"" + env.httpContent(header + "-etag-1") + "\"";
            && Sent(t.requests[0], header) == [Text(valueA)]
            && Sent(t.requests[1], header) == [Text(valueB)]
            && Sent(t.requests[0], validatorName) == Sent(t.requests[1], validatorName) == [Text(validator)]
            && t.requests[1].expectedType == Some(if k < 2 then LmValidated else EtagValidated)
            && t.requests[|t.requests| - 1].expectedResponseHeaders == Some([Header(header, Text(valueB))])
  {
    var v := if k < 2 then LastModified else ETag;
    var validator := if k < 2 then LastModified1(env, now) else ETag1(args.header, env);
    Check304Sends(args, env, now, k);
    assert SendsRowValues(Check304Tests(args, env, now)[k], v, args.header, ValueA(args, env), ValueB(args, env), validator);
  }

  /** Test `k` of a generator call sends the row's values and the validator the call computed. */
  lemma Check304Sends(args: Args, env: Env, now: int, k: nat)
    requires PlainHeader(args.header) && k < 4
    ensures SendsRowValues(Check304Tests(args, env, now)[k], if k < 2 then LastModified else ETag, args.header,
                           ValueA(args, env), ValueB(args, env),
                           if k < 2 then LastModified1(env, now) else ETag1(args.header, env))
  {
    var header, valueA, valueB := args.header, ValueA(args, env), ValueB(args, env);
    var etag1, lm1 := ETag1(header, env), LastModified1(env, now);
    var ts := Check304Tests(args, env, now);
    assert ts == [UpdateResponseTest(LastModified, header, valueA, valueB, lm1),
                  UpdateStoredTest(LastModified, header, valueA, valueB, lm1),
                  UpdateResponseTest(ETag, header, valueA, valueB, etag1),
                  UpdateStoredTest(ETag, header, valueA, valueB, etag1)];
    if k == 0 {
      UpdateResponseSends(LastModified, header, valueA, valueB, lm1);
    } else if k == 1 {
      UpdateStoredSends(LastModified, header, valueA, valueB, lm1);
    } else if k == 2 {
      UpdateResponseSends(ETag, header, valueA, valueB, etag1);
    } else {
      UpdateStoredSends(ETag, header, valueA, valueB, etag1);
    }
  }

  /**
   * A test sends `valueA` on its store step and `valueB` on its revalidation, the given validator
   * on both, expects that validator's outcome and ends expecting `valueB`.
   */
  predicate SendsRowValues(t: TestCase, v: Validator, header: string, valueA: string, valueB: string, validator: string)
  {
    && 2 <= |t.requests|
    && Sent(t.requests[0], header) == [Text(valueA)]
    && Sent(t.requests[1], header) == [Text(valueB)]
    && Sent(t.requests[0], v.HeaderName()) == Sent(t.requests[1], v.HeaderName()) == [Text(validator)]
    && t.requests[1].expectedType == Some(v.Validated())
    && t.requests[|t.requests| - 1].expectedResponseHeaders == Some([Header(header, Text(valueB))])
  }

  lemma UpdateResponseSends(v: Validator, header: string, valueA: string, valueB: string, validator: string)
    requires PlainHeader(header)
    ensures SendsRowValues(UpdateResponseTest(v, header, valueA, valueB, validator), v, header, valueA, valueB, validator)
  {
    ResponseSends(header, valueA, v, validator, 1);
    ResponseSends(header, valueB, v, validator, 3600);
  }

  lemma UpdateStoredSends(v: Validator, header: string, valueA: string, valueB: string, validator: string)
    requires PlainHeader(header)
    ensures SendsRowValues(UpdateStoredTest(v, header, valueA, valueB, validator), v, header, valueA, valueB, validator)
  {
    var rs := UpdateStoredTest(v, header, valueA, valueB, validator).requests;
    var stored := MakeResponse(header, valueA, v.HeaderName(), validator, 1);
    var update := MakeResponse(header, valueB, v.HeaderName(), validator, 3600);
    assert |rs| == 3 && rs[0].responseHeaders == Some(stored) && rs[1].responseHeaders == Some(update);
    ResponseSends(header, valueA, v, validator, 1);
    ResponseSends(header, valueB, v, validator, 3600);
    assert Sent(rs[0], header) == ValuesOf(stored, header);
    assert Sent(rs[1], header) == ValuesOf(update, header);
  }

  /** A first test followed by the tests generated from well-formed rows are all freshening tests. */
  lemma {:induction false} FreshensFrom(first: TestCase, rows: seq<Args>, env: Env)
    requires FresheningTest(first)
    requires forall row :: row in rows ==> RowOk(row)
    ensures forall i :: 0 <= i < |[first] + Generated(rows, env)| ==> FresheningTest(([first] + Generated(rows, env))[i])
  {
    var ts := [first] + Generated(rows, env);
    forall i | 0 <= i < |ts| ensures FresheningTest(ts[i]) {
      if i > 0 {
        var a, k := (i - 1) / 4, (i - 1) % 4;
        GeneratedAt(rows, env, a, k);
        assert ts[i] == Generated(rows, env)[4 * a + k];
        assert rows[a] in rows;
        Check304Freshens(rows[a], env, CallClock(env, a), k);
      }
    }
  }

  /** Every one of the 65 tests of the suite is a freshening test. */
  lemma SuiteFreshens(env: Env)
    ensures |Update304Suite(env).tests| == 65
    ensures forall i :: 0 <= i < |Update304Suite(env).tests| ==> FresheningTest(Update304Suite(env).tests[i])
  {
    TableRowsOk(env);
    UseStoredShape(env);
    FreshensFrom(UseStoredTest(env), Table(env), env);
  }

  // ---- Distinct ids ----

  function IdPrefix(k: nat): string
    requires k < 4
  {
    if k == 0 then "304-lm-update-response-"
    else if k == 1 then "304-lm-update-stored-"
    else if k == 2 then "304-etag-update-response-"
    else "304-etag-update-stored-"
  }

  lemma Check304Id(args: Args, env: Env, now: int, k: nat)
    requires k < 4
    ensures Check304Tests(args, env, now)[k].id == IdPrefix(k) + args.header
  {
    LastModifiedIds(args, env, now);
    ETagIds(args, env, now);
  }

  lemma DifferAt(s: string, t: string, x: string, y: string, p: nat)
    requires p < |s| && p < |t| && s[p] != t[p]
    ensures s + x != t + y
  {
    assert (s + x)[p] == s[p];
    assert (t + y)[p] == t[p];
  }

  lemma SamePrefix(s: string, x: string, y: string)
    requires s + x == s + y
    ensures x == y
  {
    assert x == (s + x)[|s|..];
    assert y == (s + y)[|s|..];
  }

  /** Ids with different prefixes differ, whatever the headers. */
  lemma PrefixesApart(k: nat, l: nat, x: string, y: string)
    requires k < 4 && l < 4 && k != l
    ensures IdPrefix(k) + x != IdPrefix(l) + y
  {
    if (k < 2) != (l < 2) {
      DifferAt(IdPrefix(k), IdPrefix(l), x, y, 4);
    } else if k < 2 {
      DifferAt(IdPrefix(k), IdPrefix(l), x, y, 14);
    } else {
      DifferAt(IdPrefix(k), IdPrefix(l), x, y, 16);
    }
  }

  /** The hand-written test's id is none of the generated ones. */
  lemma UseStoredApart(k: nat, x: string)
    requires k < 4
    ensures "304-lm-use-stored-Test-Header" != IdPrefix(k) + x
  {
    UseStoredIdName();
    DifferAt("304-lm-use-stored-", IdPrefix(k), "Test-Header", x, if k < 2 then 8 else 4);
  }

  /** The id at each position of the generated tests. */
  lemma GeneratedIdAt(rows: seq<Args>, env: Env, i: nat)
    requires i < 4 * |rows|
    ensures |Generated(rows, env)| == 4 * |rows|
    ensures Generated(rows, env)[i].id == IdPrefix(i % 4) + rows[i / 4].header
  {
    GeneratedAt(rows, env, i / 4, i % 4);
    Check304Id(rows[i / 4], env, CallClock(env, i / 4), i % 4);
  }

  /** Two positions of the generated tests hold different ids when the rows have distinct headers. */
  lemma GeneratedIdsApart(rows: seq<Args>, env: Env, i: nat, j: nat)
    requires forall a, b :: 0 <= a < b < |rows| ==> rows[a].header != rows[b].header
    requires i < j < 4 * |rows|
    ensures |Generated(rows, env)| == 4 * |rows|
    ensures Generated(rows, env)[i].id != Generated(rows, env)[j].id
  {
    GeneratedIdAt(rows, env, i);
    GeneratedIdAt(rows, env, j);
    var a, k := i / 4, i % 4;
    var b, l := j / 4, j % 4;
    if k != l {
      PrefixesApart(k, l, rows[a].header, rows[b].header);
    } else if IdPrefix(k) + rows[a].header == IdPrefix(l) + rows[b].header {
      assert a < b;
      SamePrefix(IdPrefix(k), rows[a].header, rows[b].header);
      assert false;
    }
  }

  /** Generated tests have distinct ids when the rows have distinct headers. */
  lemma GeneratedIdsDistinct(rows: seq<Args>, env: Env)
    requires forall a, b :: 0 <= a < b < |rows| ==> rows[a].header != rows[b].header
    ensures forall i, j :: 0 <= i < j < |Generated(rows, env)| ==>
              Generated(rows, env)[i].id != Generated(rows, env)[j].id
  {
    forall i, j | 0 <= i < j < |Generated(rows, env)|
      ensures Generated(rows, env)[i].id != Generated(rows, env)[j].id
    {
      GeneratedIdsApart(rows, env, i, j);
    }
  }

  /** The hand-written test's id followed by the generated ids, from rows with distinct headers, are distinct. */
  lemma {:induction false} IdsDistinctFrom(first: TestCase, rows: seq<Args>, env: Env)
    requires first.id == "304-lm-use-stored-Test-Header"
    requires forall a, b :: 0 <= a < b < |rows| ==> rows[a].header != rows[b].header
    ensures var ts := [first] + Generated(rows, env);
            forall i, j :: 0 <= i < j < |ts| ==> ts[i].id != ts[j].id
  {
    var ts := [first] + Generated(rows, env);
    var gen := Generated(rows, env);
    GeneratedIdsDistinct(rows, env);
    forall i, j | 0 <= i < j < |ts| ensures ts[i].id != ts[j].id {
      assert ts[j] == gen[j - 1];
      if i == 0 {
        GeneratedIdAt(rows, env, j - 1);
        UseStoredApart((j - 1) % 4, rows[(j - 1) / 4].header);
      } else {
        assert ts[i] == gen[i - 1];
      }
    }
  }

  /** No two of the suite's 65 tests share an id. */
  lemma SuiteIdsDistinct(env: Env)
    ensures forall i, j :: 0 <= i < j < |Update304Suite(env).tests| ==>
              Update304Suite(env).tests[i].id != Update304Suite(env).tests[j].id
  {
    TableHeadersDistinct(env);
    UseStoredShape(env);
    IdsDistinctFrom(UseStoredTest(env), Table(env), env);
  }

}
