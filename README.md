# Update Headers Upon a 304: a Dafny model of the test generator

The cache-tests conformance suite checks how an HTTP cache handles a `304 Not Modified`. This
project models the module that builds the "Update Headers Upon a 304" suite
(`tests/update304.mjs`). The module does three things:

- It pushes one hand-written test, `304-lm-use-stored-Test-Header`, onto a module-level list.
- It runs a generator, `check304`, over a table of sixteen header rows. Each call appends four
  tests: LM update-response, LM update-stored, ETag update-response and ETag update-stored.
- It exports the list as a suite.

Every test stores a response that is fresh for one second, waits, and then revalidates it. The
origin answers with a response that is fresh for an hour and carries the same validator. The
tests check that the cache freshens the stored headers from that 304, as section 4.3.4 of
RFC 7234 describes.

Files:

- `wrappers.dfy`: `Option`, for fields and arguments that may be absent.
- `headers.dfy`: response header lists as ordered `(name, value)` pairs. It also holds
  `ValuesOf` (the values sent under a name) and the decimal rendering that `${lifetime}`
  produces, with its round trip.
- `freshening.dfy`: a reference statement of the freshening rule. Headers on the 304 replace
  stored headers of the same name, and all other stored headers are kept. The suite's
  expectations are proved consistent with it.
- `update304.dfy`: the data model and the generator.
  - `makeResponse` is a function, and the four builders are functions.
  - The module-level list is the class `TestList`. Its `Push` and `Check304` append to a `seq`
    field.
  - `GenerateAll` is the `forEach` loop and `LoadSuite` is module initialisation. Both are
    proved against the specification functions `Check304Tests`, `Generated` and
    `Update304Suite`.
- `update304_properties.dfy`: what each response sends, and the shape of each kind of test.
- `suite_properties.dfy`: suite-wide facts. All 65 tests are freshening tests, their ids are
  distinct, and test `k` of table row `a` sits at position `1 + 4a + k`.

The external helpers become parameters, gathered in the datatype `Update304.Env`:
`utils.httpContent`, `utils.httpDate` and `Date.now()`. Nothing is assumed about them.
`Date.now()` is a function from the reading's number to its value:

- reading 0 is line 7;
- readings 1 and 2 are the `Expires` row on line 154;
- reading `3 + i` is the `check304` call on table row `i`.

So the model does not assume that the clock stands still between these calls.

## Model

| member | source | states |
|---|---|---|
| Update304.MakeResponse | tests/update304.mjs:133-140 | every generated response is a list of exactly four header pairs |
| Update304Properties.MakeResponseValues | tests/update304.mjs:133-140 | for every header name, the values a generated response sends: the tested value under the tested header, the validator under its type, `max-age=<lifetime>` under `Cache-Control` unless `Cache-Control` is the header under test, `Date: 0`, the placeholder `a: b` only when `Cache-Control` is tested, and nothing else; so exactly one `Cache-Control` is ever sent |
| Update304Properties.ResponseSends | tests/update304.mjs:133-140 | a generated response sends the tested value once, its own validator once and not the other kind, and one `Cache-Control` that is the tested value or the lifetime |
| Headers.Decimal | tests/update304.mjs:135 | `${lifetime}` renders a non-negative integer as digits with no leading zero |
| Headers.DecimalRoundTrip | tests/update304.mjs:135 | reading the rendered digits back gives the lifetime, so `max-age=` carries the intended number |
| Update304Properties.MaxAgeValues | tests/update304.mjs:50-55 | the lifetimes 1 and 3600 render as `max-age=1` and `max-age=3600` |
| Update304.Check304Tests | tests/update304.mjs:37-131 | one generator call yields exactly four tests, each with at least two steps |
| Update304.TestList.constructor | tests/update304.mjs:3 | the module-level list starts empty |
| Update304.TestList.Push | tests/update304.mjs:8 | `tests.push` appends one test and changes nothing else |
| Update304.TestList.Check304 | tests/update304.mjs:37-131 | a call appends exactly `Check304Tests` of its row, four tests, and leaves every earlier entry unchanged |
| Update304Properties.LastModifiedIds | tests/update304.mjs:45-66 | the first two appended tests have ids `304-lm-update-response-<header>` and `304-lm-update-stored-<header>`, in that order |
| Update304Properties.ETagIds | tests/update304.mjs:88-110 | the last two have ids `304-etag-update-response-<header>` and `304-etag-update-stored-<header>`, in that order |
| SuiteProperties.Check304Id | tests/update304.mjs:45-110 | test `k` of a call has id `IdPrefix(k) + header` |
| SuiteProperties.Check304Values | tests/update304.mjs:37-131 | test `k` of a call, in terms of the row. The stored response sends the row's first value, or `httpContent(header-value-A)` when that value is absent or empty. The 304 sends the second value, or `httpContent(header-value-B)`. Both send one validator: for tests 0 and 1, `Last-Modified` = `httpDate(now, -86400)`; for tests 2 and 3, `ETag` = the quoted `httpContent(header-etag-1)`. The revalidation expects `lm_validated` or `etag_validated` to match, and the last step expects `[[header, second value]]` |
| SuiteProperties.Check304Sends | tests/update304.mjs:37-131 | test `k` of a call sends the row's values (after defaulting) and the validator that call computed: `lm1` for tests 0 and 1, `etag1` for tests 2 and 3 |
| SuiteProperties.UpdateResponseSends | tests/update304.mjs:45-63 | an update-response test sends valueA on its store step, valueB on its revalidation and the given validator on both; it expects the validator's own outcome and `[[header, valueB]]` |
| SuiteProperties.UpdateStoredSends | tests/update304.mjs:64-87 | the same for an update-stored test, whose `[[header, valueB]]` expectation sits on its third step |
| Update304Properties.RevalidationPair | tests/update304.mjs:50-55 | the stored response and the 304 of a generated test: one-second and one-hour lifetimes, the same validator of one kind only, valueA then valueB, |
| Update304Properties.RevalidationFreshened | tests/update304.mjs:50-61 | freshening the stored response with the 304 yields exactly `valueB` under the tested header, which is what the test expects |
| Update304Properties.GeneratedPairAgrees | tests/update304.mjs:45-130 | the two responses of every generated test agree: the cached lifetimes, the same validators and one validator of the test's kind. Freshening gives the expected header |
| Update304Properties.StepsFreshen | tests/update304.mjs:5-35 | a test whose store and revalidation steps are laid out as this module's tests are, with agreeing responses and a freshened expectation, is a freshening test |
| Update304Properties.UpdateResponseFreshens | tests/update304.mjs:45-63 | an update-response test is a freshening test |
| Update304Properties.UpdateResponseShape | tests/update304.mjs:45-63 | an update-response test has two steps: a setup + pause_after store built from valueA with lifetime 1, then a revalidation built from valueB with lifetime 3600 and the same validator, expecting the validator's outcome, `[[header, valueB]]` and `setup_tests = ['expected_type']` |
| Update304Properties.UpdateStoredFreshens | tests/update304.mjs:64-87 | an update-stored test is a freshening test (see `FresheningTest` in update304_properties.dfy) |
| Update304Properties.UpdateStoredShape | tests/update304.mjs:64-87 | an update-stored test has three steps. The store is setup + pause_after. The revalidation is also setup + pause_after and expects the validator's outcome. The last step declares no response, expects `cached` with `[[header, valueB]]`, and checks `expected_type` |
| Update304Properties.UseStoredSends | tests/update304.mjs:5-35 | in the hand-written test, the stored response sends `Test-Header: valueA` and the second response omits `Test-Header`; both send the same `Last-Modified` and no `ETag`, with lifetimes 1 and 3600 |
| Update304Properties.UseStoredPairAgrees | tests/update304.mjs:5-35 | the hand-written test's responses agree, and freshening keeps the stored `Test-Header` because the 304 omits it |
| Update304Properties.UseStoredFreshens | tests/update304.mjs:5-35 | the hand-written test is a freshening test |
| Update304Properties.UseStoredShape | tests/update304.mjs:5-35 | the hand-written test `304-lm-use-stored-Test-Header` is a freshening test: its second step expects `lm_validated` and `[[Test-Header, valueA]]`, the stored value that the 304 did not replace |
| Update304.Table | tests/update304.mjs:142-158 | the generator's table has sixteen rows |
| SuiteProperties.TableRowsOk | tests/update304.mjs:142-158 | no tested header is `Date`, `Last-Modified` or `ETag`; the `Cache-Control` row's values are `max-age=1` and `max-age=3600`, matching the lifetimes of the other rows |
| SuiteProperties.TableHeadersDistinct | tests/update304.mjs:142-158 | the sixteen tested header names are pairwise distinct |
| Update304.GeneratedUpTo | tests/update304.mjs:142-159 | the calls over the first `n` rows yield `4n` tests |
| Update304.Generated | tests/update304.mjs:142-159 | the calls over all rows yield four tests per row |
| Update304.GeneratedIndex | tests/update304.mjs:159 | position `j` of the generated tests holds test `j mod 4` of the call on row `j div 4`, with that call's clock reading |
| Update304.GeneratedStep | tests/update304.mjs:159 | running the generator on one more row appends exactly that row's four tests |
| SuiteProperties.GeneratedAt | tests/update304.mjs:159 | test `k` of the call on row `a` is at position `4a + k` of the generated tests |
| SuiteProperties.Check304Freshens | tests/update304.mjs:37-131 | on a row of the table's kind, every one of the four tests is a freshening test |
| Update304.GenerateAll | tests/update304.mjs:142-159 | the `forEach` appends `Generated(rows)` to the list. Its loop keeps the list equal to what it held before plus `GeneratedUpTo(rows, i)`, the tests of the rows done so far, so the length is the previous length plus `4i` |
| Update304.LoadSuite | tests/update304.mjs:1-166 | module initialisation exports exactly `Update304Suite`: name `Update Headers Upon a 304`, id `update304`, the hand-written test first, then the 64 generated tests, 65 in all |
| SuiteProperties.FreshensFrom | tests/update304.mjs:142-166 | a freshening test followed by the tests generated from well-formed rows are all freshening tests |
| SuiteProperties.SuiteFreshens | tests/update304.mjs:142-166 | the exported suite holds 65 tests, and every one is a freshening test. Each first stores a response (lifetime 1, setup, pause_after), then revalidates it with the same validator (lifetime 3600). Every step's expected outcome matches the validator it sends. The last step checks `expected_type` and expects exactly the headers that freshening the stored response with the 304 yields |
| SuiteProperties.PrefixesApart | tests/update304.mjs:47-108 | ids built from two different generated prefixes differ, whatever the headers |
| SuiteProperties.UseStoredApart | tests/update304.mjs:10 | the hand-written test's id is none of the generated ids |
| SuiteProperties.GeneratedIdAt | tests/update304.mjs:142-159 | the id at position `i` of the generated tests is `IdPrefix(i mod 4)` followed by the header of row `i div 4` |
| SuiteProperties.GeneratedIdsApart | tests/update304.mjs:142-159 | two positions of the generated tests hold different ids when the rows' headers are distinct |
| SuiteProperties.GeneratedIdsDistinct | tests/update304.mjs:142-159 | rows with distinct headers generate tests with pairwise distinct ids |
| SuiteProperties.IdsDistinctFrom | tests/update304.mjs:142-166 | the hand-written id followed by the ids generated from rows with distinct headers are pairwise distinct |
| SuiteProperties.SuiteIdsDistinct | tests/update304.mjs:142-166 | no two of the suite's 65 tests share an id |
| Freshening.Freshen | tests/update304.mjs:164 | freshening a stored response with a 304 gives, for every header name, the 304's values if it sends that name and the stored values otherwise |
| Freshening.FreshenKeeps | tests/update304.mjs:164 | a header the 304 does not send keeps its stored values |
| Freshening.FreshenIdempotent | tests/update304.mjs:164 | freshening twice with the same 304 gives what freshening once gives |

## Left out

- `utils.httpContent` and `utils.httpDate` are not part of this model. They are uninterpreted
  parameters. Nothing is assumed about their collisions, the date format, or whether they can
  return an empty string.
- `Date.now()` is a parameter (`Env.clock`). Its readings are numbered in the order the module
  takes them.
- The ES module mechanics (`import`, `export default`) are left out. The exported object is the
  value that `LoadSuite` returns.
- `forEach` also passes an index and the array to `check304`, which ignores them. The model
  passes only the row.
- JavaScript truthiness of `args[1]` and `args[2]` is modelled for what the table holds: a
  string or nothing. Absent and `""` fall back to the default. Other falsy values do not occur.
- Fields that a test object leaves out are modelled as follows. `setup` and `pause_after` read
  as false, and `setup_tests` reads as the empty list. `response_headers`, `expected_type` and
  `expected_response_headers` are `None`. The suite's tests declare no `kind`, `depends_on` or
  browser flags, so those fields are not in the model.
- Test names are modelled as the same strings, but nothing is proved about them.
- `tests/cc-freshness.mjs` and `tests/cc-request.mjs` are left out. They are data literals with
  no operations.
- The harness that runs the suite against a cache is not part of this model. That covers
  scheduling, pacing, request execution, the origin server and outcome classification.
  `Freshening.Freshen` is only a reference for what the expectations assert. It leaves out the
  rule that hop-by-hop headers are not carried over, because none of the suite's headers is
  hop-by-hop.
