# The mocked-response table of MockLink, in Dafny

This project models `MockLink`, the test link of the client library
(`src/utilities/testing/mocking/mockLink.ts`). A link answers GraphQL operations.
This one answers them from a table of mocked responses filed under a request key.

- The key is the JSON text of `{ query: <printed query> }`. When `addTypename` is
  set, the query is printed after `__typename` fields are added to it.
- The constructor files the given mocks one by one with `addMockedResponse`. That
  method normalizes a mock and appends it to the list of its key.
- `request` looks up the operation's key. It takes the first mock in that list whose
  variables structurally equal the operation's variables, where absent variables
  count as `{}`. It removes that mock from the list. A mock with `newData` gets a
  freshly generated `result` and is put back at the end of the list. It then
  schedules one outcome after the mock's `delay`:
  - a configuration error: no matching mock, or a mock with neither `result` nor
    `error`;
  - the mock's `error`;
  - or `next(result)` followed by `complete`.
- `mockSingleLink` takes a trailing boolean argument as the `addTypename` flag.

The files:

- `options.dfy`: the `Option` datatype. `None` stands for `undefined`.
- `json_key.dfy` (module `JsonKey`): the one `JSON.stringify` call of the key. It
  includes string-literal escaping as the QuoteJSONString operation of ECMA-262
  defines it, and a reader for the resulting text. The round trip proves that the
  key determines the printed query it was made from.
- `mock_responses.dfy` (module `MockResponses`): the data model and the pure rules.
  These are the key, normalization, the table, filing, matching, consuming,
  settling, notifying the observer, and the argument split of `mockSingleLink`.
  Each rule comes with lemmas relating it to the others.
- `mock_link.dfy` (module `Mocking`): the class `MockLink`.
  - Its `mockedResponsesByKey` is a `map` field that its methods reassign.
  - `Valid()` says every mock sits under its own key. The constructor establishes
    it, and both methods preserve it.
  - `FindResponse` is the `find` loop.
  - `MockSingleLink` builds a link from a list of arguments.

The document helpers are fields of a `DocumentTools` value that the link holds:
graphql's `print`, `addTypenameToDocument`, `removeConnectionDirectiveFromDocument`
and `removeClientSetsFromDocument`. Documents are an abstract type, so everything
proved holds for every choice of these helpers.

`request` is modelled without its `Observable`. It returns the outcome and the
delay, and `Notify` gives the observer calls the timer then makes.

- `mockLink.ts` also tests `typeof responseIndex === 'undefined'` alongside
  `!response` (line 90). That test can never hold, because the index is initialised
  to 0. Only the absence of a match leads to the "no more mocked responses" error.
- Under the model's assumptions, the timer's `if (response.result)` test (line 131)
  always holds when it is reached: a mock with neither `result` nor `error` has
  already become a configuration error. So a delivered result is always followed by
  `complete`, and the outcome `NextThenComplete` always carries a result. In
  `mockLink.ts` the test can fail, but only when two things the "## Left out" list
  names happen together. First, a request is served from a `newData` mock with a
  result, and its timer is pending. Then a later request matches the same
  re-appended mock, and this time `newData()` returns `undefined` (line 101). The
  earlier timer reads the overwritten `result` and calls only `complete` (lines
  131 and 138). It takes both the line on when settling is read and the line on
  what result functions return. Either event alone does not make the test fail:
  `undefined` from `newData` on its own becomes the configuration error of line
  105, and an overwrite with a result still passes the test.

## Model

| member | source | states |
|---|---|---|
| `JsonKey.EscapeChar` | src/utilities/testing/mocking/mockLink.ts:35 | (QuoteJSONString, one character) a character is written as itself if and only if it is at least a space and neither a quote nor a backslash; every other character becomes an escape that starts with a backslash |
| `JsonKey.Escape` | src/utilities/testing/mocking/mockLink.ts:35 | definition: the body of the string literal is the concatenation of the escapes of its characters; `ReadEscaped` proves it can be read back |
| `JsonKey.StringifyQueryObject` | src/utilities/testing/mocking/mockLink.ts:34-35 | definition: `{}` when the query is undefined, since `JSON.stringify` omits the member, and otherwise `{"query":` with the literal of the printed query, then `}`; `ParseStringify` proves it invertible |
| `JsonKey.EscapeCons` | src/utilities/testing/mocking/mockLink.ts:35 | the escape of a non-empty string begins with the escape of its first character, whatever text follows |
| `JsonKey.ReadEscaped` | src/utilities/testing/mocking/mockLink.ts:34-35 | the escaped body of a string literal, followed by its closing quote and any text, reads back as the original string and that text |
| `JsonKey.ParseStringify` | src/utilities/testing/mocking/mockLink.ts:34-35 | the text of `JSON.stringify({ query: q })` reads back as `q`, whether `q` is a string or undefined |
| `JsonKey.StringifyInjective` | src/utilities/testing/mocking/mockLink.ts:34-35 | two such objects stringify to the same text if and only if their queries are equal |
| `MockResponses.PrintedQuery` | src/utilities/testing/mocking/mockLink.ts:31-33 | definition: `undefined` when the request has no query; otherwise `print` of the query, with `__typename` fields added first when `addTypename` is set; it reads `request.query` alone |
| `MockResponses.RequestToKey` | src/utilities/testing/mocking/mockLink.ts:30-36 | definition: the JSON text of `{ query: <printed query> }`; the two lemmas below state what the key determines |
| `MockResponses.KeyDeterminesPrintedQuery` | src/utilities/testing/mocking/mockLink.ts:30-36 | the request key reads back as the printed query, typename-augmented when `addTypename` is set, so the variables never enter it |
| `MockResponses.SameKeyIffSamePrintedQuery` | src/utilities/testing/mocking/mockLink.ts:30-36 | two requests have the same key if and only if their printed queries agree, so requests with one query and different variables share one list |
| `MockResponses.Normalize` | src/utilities/testing/mocking/mockLink.ts:149-163 | normalization changes only the query: it drops `@connection` directives and then client-only fields when that result exists; it requires the query to survive the first removal (the `invariant`) |
| `MockResponses.NormalizeAll` | src/utilities/testing/mocking/mockLink.ts:49-53 | the constructor's mocks are normalized position by position, keeping their number and order; each keeps its variables and every field other than the request's query |
| `MockResponses.Lookup` | src/utilities/testing/mocking/mockLink.ts:76 | definition: the list filed under a key, with a missing key read as the empty list, as the default to `[]` does |
| `MockResponses.FileAll` | src/utilities/testing/mocking/mockLink.ts:49-53 | definition: the table after `addMockedResponse` files each normalized mock in turn; `FileAllLookup` and `FiledFromEmpty` state its lists |
| `MockResponses.FiledUnder` | src/utilities/testing/mocking/mockLink.ts:60-63 | the mocks selected for a key are exactly the mocks of the input whose own key is that key (both directions of membership), and they are no more numerous than the input |
| `MockResponses.LookupAfterAdd` | src/utilities/testing/mocking/mockLink.ts:64-69 | appending under one key adds the mock to the end of that key's list (an absent key reads as an empty list) and leaves every other key's list as it was, whatever follows it |
| `MockResponses.FileAllLookup` | src/utilities/testing/mocking/mockLink.ts:49-53 | after mocks are filed in turn, each key's list is its old list followed by exactly the mocks of that key, in input order |
| `MockResponses.FiledFromEmpty` | src/utilities/testing/mocking/mockLink.ts:43-54 | the constructor's table holds under each key exactly the normalized mocks of that key, in input order |
| `MockResponses.FileAllKeyedConsistently` | src/utilities/testing/mocking/mockLink.ts:56-70 | filing mocks keeps every mock in the list of its own key |
| `MockResponses.VariablesOrEmpty` | src/utilities/testing/mocking/mockLink.ts:78-79 | definition: absent variables read as `{}` |
| `MockResponses.VariablesMatch` | src/utilities/testing/mocking/mockLink.ts:78-80 | definition: a mock matches when its variables, absent read as `{}`, structurally equal the operation's, absent read as `{}` |
| `MockResponses.FirstMatch` | src/utilities/testing/mocking/mockLink.ts:76-86 | the selected index holds a mock whose variables, with absent ones read as `{}`, equal the operation's, and no earlier mock matches; there is no index if and only if no mock matches |
| `MockResponses.Matching` | src/utilities/testing/mocking/mockLink.ts:76-86 | the mocks that requests with given variables can be served from: exactly the list's mocks whose variables match (both directions of membership), in list order, and no more than the list |
| `MockResponses.MatchingAppend` | src/utilities/testing/mocking/mockLink.ts:76-86 | the matching mocks of two lists one after the other are the matching mocks of the first followed by those of the second |
| `MockResponses.MatchingAroundFirst` | src/utilities/testing/mocking/mockLink.ts:76-86 | the matching mocks are the first match followed by the matching mocks after it, and removing the first match leaves exactly those later ones |
| `MockResponses.Regenerated` | src/utilities/testing/mocking/mockLink.ts:99-103 | a mock with `newData` gets the newly generated value as its `result` and keeps everything else, while a mock without `newData` is unchanged |
| `MockResponses.Consume` | src/utilities/testing/mocking/mockLink.ts:97-103 | the list loses exactly the entry at the matched index, and the others keep their relative order; with `newData` the length is unchanged and the regenerated mock is last |
| `MockResponses.ConsumeFirstMatch` | src/utilities/testing/mocking/mockLink.ts:76-103 | a request takes the first mock that matches, and the next request with the same variables can match the remaining matches in order, followed by the regenerated mock when there was `newData` |
| `MockResponses.ConsumeKeepsKeys` | src/utilities/testing/mocking/mockLink.ts:97-103 | removing and re-appending keeps every mock of the list under the list's key |
| `MockResponses.ServeKeepsKeyedConsistently` | src/utilities/testing/mocking/mockLink.ts:74-103 | serving a request from a table in which every mock is in its own key's list leaves a table with the same property |
| `MockResponses.MatchedMockFitsRequest` | src/utilities/testing/mocking/mockLink.ts:74-86 | in a consistently keyed table, the matched mock has the operation's printed query and equal variables |
| `MockResponses.Settle` | src/utilities/testing/mocking/mockLink.ts:105-139 | it is a configuration error with the key if and only if the mock has neither `result` nor `error`; a response error comes only from, and always from, the mock's own `error`; otherwise a plain result is delivered as is and a result function is called for the value delivered |
| `MockResponses.RegeneratedDelivers` | src/utilities/testing/mocking/mockLink.ts:99-109 | a regenerated mock never settles with the configuration error, and without an `error` it delivers the freshly generated result |
| `MockResponses.DelayOf` | src/utilities/testing/mocking/mockLink.ts:141 | definition of `response && response.delay`, defaulting to 0: the matched mock's `delay`, or 0 when there is no match or no delay; `Request` states that regeneration leaves the delay alone |
| `MockResponses.Notify` | src/utilities/testing/mocking/mockLink.ts:112-140 | nothing follows an error or a completion; a configuration error reaches `observer.error` unless `onError` returns false, and something `onError` throws is passed on instead; a mock's error is one `error` call; a result is `next` then `complete`; the observer gets no call if and only if `onError` returns false |
| `MockResponses.SplitArguments` | src/utilities/testing/mocking/mockLink.ts:178-184 | a trailing boolean becomes the flag and the preceding arguments are put back together without it; otherwise all the arguments are mocks and the flag is true |
| `MockResponses.SplitTrailingFlag` | src/utilities/testing/mocking/mockLink.ts:178-184 | mocks followed by a boolean split into exactly those mocks and that boolean |
| `MockResponses.SplitWithoutFlag` | src/utilities/testing/mocking/mockLink.ts:178-184 | when no argument is a boolean, all of them are mocks and the flag is true |
| `Mocking.FindResponse` | src/utilities/testing/mocking/mockLink.ts:75-86 | the loop returns the first matching mock and its index, which is 0 when nothing matches |
| `Mocking.MockLink.constructor` | src/utilities/testing/mocking/mockLink.ts:40-54 | the table is the mocks, normalized and filed in input order (empty when the array is missing); the flag is the one given, `true` when it is omitted; every mock is in its own key's list |
| `Mocking.MockLink.AddMockedResponse` | src/utilities/testing/mocking/mockLink.ts:56-70 | the normalized mock is appended to its key's list, which is created when the key is absent; every other key is unchanged and the keying invariant is preserved |
| `Mocking.MockLink.Request` | src/utilities/testing/mocking/mockLink.ts:72-141 | it records the operation. Without a match, the table is unchanged, the outcome is the "no more mocked responses" error and the delay is 0. With a match, only the key's list changes, to the consumed list; the outcome is that of the regenerated mock; the delay is the filed mock's own; under the invariant the mock has the operation's printed query; the keying invariant is preserved |
| `Mocking.MockSingleLink` | src/utilities/testing/mocking/mockLink.ts:173-187 | the new link's flag and table come from splitting the arguments, and it satisfies the keying invariant |

## Left out

- The `Observable`, `setTimeout` and `clearTimeout`: `Request` returns the outcome
  and the delay, and `Notify` gives the observer calls. Unsubscribing before the
  timer fires is not modelled.
- When settling is read: `mockLink.ts` reads the matched mock's `result` and `error`
  when the timer fires. A later request that matches the same re-appended
  `newData` mock before that moment overwrites its `result`, and the earlier request
  then delivers the later value. The model settles each request with the values it
  had when it was served.
- What `newData` and result functions return: the `call` parameter of `Request`
  gives it. So one function gives one value within one request. A `newData` that
  returns `undefined` (line 101), and a result function that returns `undefined` so
  that `next(undefined)` is called (lines 132-135), are not modelled: `call` always
  gives a `FetchResult`.
- `onError`: it comes from the `ApolloLink` base class, which is not part of this
  model. It is a parameter of `Notify` saying whether the hook returns false,
  returns something else or throws. Calls the hook itself makes on the observer are
  not modelled.
- The text of the two configuration-error messages: the errors carry the query and
  variables, or the key, instead of the message text that embeds them.
- `print`, `addTypenameToDocument`, `removeConnectionDirectiveFromDocument` and
  `removeClientSetsFromDocument` are foreign document transforms, so they are
  arbitrary functions here. `cloneDeep` is implicit, because mocks are values.
- `equal` from `@wry/equality` is modelled as structural equality on a JSON-like
  `Value`. JavaScript numbers are integers here. Object members whose value is
  `undefined`, `NaN` and other non-JSON values are not modelled.
- A query that is `null` rather than `undefined`: that stringifies to
  `{"query":null}`, and only the `undefined` case is modelled. Lone surrogate code
  units in a printed query are not modelled either, because a Dafny `char` is a
  Unicode scalar value.
- Operations are modelled by their `query` and `variables` only, which are the only
  fields the link reads. The `MockApolloLink` interface adds nothing to model.
- Mocks rejected by the `invariant` in `normalizeMockedResponse`, and
  `mockSingleLink` arguments that are neither mocks nor a trailing boolean: in
  `mockLink.ts` these throw. Here they are excluded by the `requires` clauses of the
  constructor, `AddMockedResponse` and `MockSingleLink`.
- Writes to the public `addTypename` field by code outside the class: `Valid()`
  relates the table to the current flag, so `Request` does not require `Valid()`.
  It only keeps `Valid()` when it held before.
