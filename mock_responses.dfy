/** The data of the mock link (src/utilities/testing/mocking/mockLink.ts): mocked
    responses, the request key they are filed under, the table of responses by key,
    and the pure rules by which a request selects, consumes and settles a mocked
    response. The class that holds the table is in module MockLink. */
module MockResponses {
  import opened Options
  import JsonKey

  /** A parsed GraphQL document. Its structure is never inspected here: every use goes
      through the document helpers of `DocumentTools`. */
  type Document(==)

  /** The GraphQL-document helpers the mock link calls (`printDocument` is graphql's
      `print`). None of them is part of this
      model, so the model holds for every choice of them. The two removers give `None`
      where the helpers mockLink.ts calls give `null`. */
  datatype DocumentTools = DocumentTools(
    printDocument: Document -> string,
    addTypenameToDocument: Document -> Document,
    removeConnectionDirectiveFromDocument: Document -> Option<Document>,
    removeClientSetsFromDocument: Document -> Option<Document>)

  /** A JSON-like value, as request variables and results hold them. */
  datatype Value =
    | Null
    | Bool(b: bool)
    | Number(n: int)
    | Str(s: string)
    | List(items: seq<Value>)
    | Object(fields: map<string, Value>)

  type Variables = map<string, Value>

  /** The two parts of a GraphQL request (and of an operation) the mock link looks at. */
  datatype GraphQLRequest = GraphQLRequest(query: Option<Document>, variables: Option<Variables>)

  /** A result as the link delivers it to `observer.next`. */
  datatype FetchResult = FetchResult(data: Option<Value>, errors: Option<seq<Value>>)

  /** The identity of a caller-supplied function returning a result (`ResultFunction`).
      What a call of it returns is supplied from outside the model. */
  datatype ResultFunction = ResultFunction(id: nat)

  /** A mock's `result`: a result, or a function that produces one when called. */
  datatype MockResult = Plain(fetchResult: FetchResult) | Thunk(fn: ResultFunction)

  /** The errors a request can settle with: the error a mock supplies, and the two
      configuration errors of the link itself (their message text is not modelled). */
  datatype Error =
    | MockError(message: string)
    | NoMoreMockedResponses(query: Option<Document>, variables: Option<Variables>)
    | MissingResultOrError(key: string)

  datatype MockedResponse = MockedResponse(
    request: GraphQLRequest,
    result: Option<MockResult>,
    error: Option<Error>,
    delay: Option<int>,
    newData: Option<ResultFunction>)

  /** The mocked responses filed under each request key, each list in order. */
  type Table = map<string, seq<MockedResponse>>

  // ---------------------------------------------------------------------------
  // Request keys

  /** The printed query a key is made from; `None` when the request has no query. */
  function PrintedQuery(tools: DocumentTools, request: GraphQLRequest, addTypename: bool): Option<string>
  {
    match request.query
    case None => None
    case Some(q) => Some(tools.printDocument(if addTypename then tools.addTypenameToDocument(q) else q))
  }

  /** `requestToKey`: the JSON text of `{ query: <printed query> }`. */
  function RequestToKey(tools: DocumentTools, request: GraphQLRequest, addTypename: bool): string
  {
    JsonKey.StringifyQueryObject(PrintedQuery(tools, request, addTypename))
  }

  /** The key reads back as the printed query it was made from, so it depends on the
      query alone and never on the variables. */
  lemma KeyDeterminesPrintedQuery(tools: DocumentTools, request: GraphQLRequest, addTypename: bool)
    ensures JsonKey.ParseQueryObject(RequestToKey(tools, request, addTypename))
         == Some(PrintedQuery(tools, request, addTypename))
  {
    JsonKey.ParseStringify(PrintedQuery(tools, request, addTypename));
  }

  /** Two requests share a key exactly when their printed queries agree: requests
      with one query and different variables share one list, and requests with
      different printed queries never do. */
  lemma SameKeyIffSamePrintedQuery(tools: DocumentTools, a: GraphQLRequest, b: GraphQLRequest, addTypename: bool)
    ensures RequestToKey(tools, a, addTypename) == RequestToKey(tools, b, addTypename)
        <==> PrintedQuery(tools, a, addTypename) == PrintedQuery(tools, b, addTypename)
  {
    JsonKey.StringifyInjective(PrintedQuery(tools, a, addTypename), PrintedQuery(tools, b, addTypename));
  }

  // ---------------------------------------------------------------------------
  // Normalization

  /** The `invariant` of `normalizeMockedResponse`: the query is present and survives
      the removal of `@connection` directives. */
  predicate CanNormalize(tools: DocumentTools, m: MockedResponse)
  {
    m.request.query.Some? && tools.removeConnectionDirectiveFromDocument(m.request.query.value).Some?
  }

  /** `normalizeMockedResponse` on a deep copy: only the query changes. It loses its
      `@connection` directives and, when that leaves something, its client-only
      fields. */
  function Normalize(tools: DocumentTools, m: MockedResponse): (n: MockedResponse)
    requires CanNormalize(tools, m)
    ensures n == m.(request := n.request) && n.request.variables == m.request.variables
    ensures var q := tools.removeConnectionDirectiveFromDocument(m.request.query.value).value;
            n.request.query == Some(match tools.removeClientSetsFromDocument(q)
                                    case Some(q') => q'
                                    case None => q)
  {
    var withoutConnection := tools.removeConnectionDirectiveFromDocument(m.request.query.value).value;
    var query := match tools.removeClientSetsFromDocument(withoutConnection)
                 case Some(q) => q
                 case None => withoutConnection;
    m.(request := m.request.(query := Some(query)))
  }

  // ---------------------------------------------------------------------------
  // The table

  /** `mockedResponsesByKey[key] || []` */
  function Lookup(table: Table, key: string): seq<MockedResponse>
  {
    if key in table then table[key] else []
  }

  /** The key `addMockedResponse` files a (normalized) mock under. */
  function KeyOf(tools: DocumentTools, addTypename: bool, m: MockedResponse): string
  {
    RequestToKey(tools, m.request, addTypename)
  }

  /** Every mock is filed under its own request key. */
  ghost predicate KeyedConsistently(tools: DocumentTools, addTypename: bool, table: Table)
  {
    forall key, m :: key in table && m in table[key] ==> KeyOf(tools, addTypename, m) == key
  }

  /** The constructor's mocks after `normalizeMockedResponse`, in input order. */
  function NormalizeAll(tools: DocumentTools, mocks: seq<MockedResponse>): (ns: seq<MockedResponse>)
    requires forall m | m in mocks :: CanNormalize(tools, m)
    ensures |ns| == |mocks|
    ensures forall i | 0 <= i < |mocks| :: ns[i] == Normalize(tools, mocks[i])
    ensures forall i | 0 <= i < |mocks| ::
              ns[i] == mocks[i].(request := ns[i].request) && ns[i].request.variables == mocks[i].request.variables
  {
    seq(|mocks|, i requires 0 <= i < |mocks| => Normalize(tools, mocks[i]))
  }

  /** The table after `addMockedResponse` files each normalized mock of `ns` in turn. */
  function FileAll(tools: DocumentTools, addTypename: bool, table: Table, ns: seq<MockedResponse>): Table
    decreases |ns|
  {
    if ns == [] then table
    else
      var key := KeyOf(tools, addTypename, ns[0]);
      FileAll(tools, addTypename, table[key := Lookup(table, key) + [ns[0]]], ns[1..])
  }

  /** The mocks of `ns` that are filed under `key`, in order. */
  function FiledUnder(tools: DocumentTools, addTypename: bool, ns: seq<MockedResponse>, key: string): (r: seq<MockedResponse>)
    ensures |r| <= |ns|
    ensures forall n | n in r :: n in ns && KeyOf(tools, addTypename, n) == key
    ensures forall n | n in ns && KeyOf(tools, addTypename, n) == key :: n in r
  {
    if ns == [] then []
    else
      (if KeyOf(tools, addTypename, ns[0]) == key then [ns[0]] else [])
        + FiledUnder(tools, addTypename, ns[1..], key)
  }

  /** Appending under one key changes no other key's list; `head` is what the
      appended mock adds under `key`, and `later` what follows it there. */
  lemma LookupAfterAdd(table: Table, k: string, n: MockedResponse, key: string, head: seq<MockedResponse>, later: seq<MockedResponse>)
    requires head == if k == key then [n] else []
    ensures Lookup(table[k := Lookup(table, k) + [n]], key) + later == Lookup(table, key) + (head + later)
  {
    assert (Lookup(table, key) + head) + later == Lookup(table, key) + (head + later);
  }

  /** Filing mocks one by one appends, under each key, exactly the mocks of that key,
      in the order they were given; lists under the other keys are unchanged. */
  lemma {:induction false} FileAllLookup(tools: DocumentTools, addTypename: bool, table: Table, ns: seq<MockedResponse>, key: string)
    ensures Lookup(FileAll(tools, addTypename, table, ns), key)
         == Lookup(table, key) + FiledUnder(tools, addTypename, ns, key)
    decreases |ns|
  {
    if ns != [] {
      var k := KeyOf(tools, addTypename, ns[0]);
      var table' := table[k := Lookup(table, k) + [ns[0]]];
      var head := if k == key then [ns[0]] else [];
      FileAllLookup(tools, addTypename, table', ns[1..], key);
      LookupAfterAdd(table, k, ns[0], key, head, FiledUnder(tools, addTypename, ns[1..], key));
    }
  }

  /** The table the constructor builds: under each key, exactly the normalized mocks
      of that key, in the order they were given. */
  lemma FiledFromEmpty(tools: DocumentTools, addTypename: bool, ms: seq<MockedResponse>, key: string)
    requires forall m | m in ms :: CanNormalize(tools, m)
    ensures Lookup(FileAll(tools, addTypename, map[], NormalizeAll(tools, ms)), key)
         == FiledUnder(tools, addTypename, NormalizeAll(tools, ms), key)
  {
    var ns := NormalizeAll(tools, ms);
    FileAllLookup(tools, addTypename, map[], ns, key);
    assert Lookup(map[], key) + FiledUnder(tools, addTypename, ns, key) == FiledUnder(tools, addTypename, ns, key);
  }

  /** Filing mocks keeps every mock under its own key. */
  lemma {:induction false} FileAllKeyedConsistently(tools: DocumentTools, addTypename: bool, table: Table, ns: seq<MockedResponse>)
    requires KeyedConsistently(tools, addTypename, table)
    ensures KeyedConsistently(tools, addTypename, FileAll(tools, addTypename, table, ns))
    decreases |ns|
  {
    if ns != [] {
      var k := KeyOf(tools, addTypename, ns[0]);
      FileAllKeyedConsistently(tools, addTypename, table[k := Lookup(table, k) + [ns[0]]], ns[1..]);
    }
  }

  // ---------------------------------------------------------------------------
  // Matching

  /** `operation.variables || {}` and `res.request.variables || {}` */
  function VariablesOrEmpty(v: Option<Variables>): Variables
  {
    match v
    case None => map[]
    case Some(vs) => vs
  }

  /** `equal(requestVariables, mockedResponseVariables)`: structural equality, with
      absent variables read as `{}`. */
  predicate VariablesMatch(operationVariables: Variables, m: MockedResponse)
  {
    operationVariables == VariablesOrEmpty(m.request.variables)
  }

  /** The index of the first mock whose variables match, if any. */
  function FirstMatch(list: seq<MockedResponse>, vars: Variables): (r: Option<nat>)
    ensures r.Some? ==> r.value < |list| && VariablesMatch(vars, list[r.value])
    ensures r.Some? ==> forall j | 0 <= j < r.value :: !VariablesMatch(vars, list[j])
    ensures r.None? <==> forall j | 0 <= j < |list| :: !VariablesMatch(vars, list[j])
  {
    if list == [] then None
    else if VariablesMatch(vars, list[0]) then Some(0)
    else match FirstMatch(list[1..], vars)
      case None => None
      case Some(i) => Some(i + 1)
  }

  /** The mocks of `list` whose variables match, in order: the ones that requests with
      these variables are served from, one per request. */
  function Matching(list: seq<MockedResponse>, vars: Variables): (r: seq<MockedResponse>)
    ensures |r| <= |list|
    ensures forall m | m in r :: m in list && VariablesMatch(vars, m)
    ensures forall m | m in list && VariablesMatch(vars, m) :: m in r
  {
    if list == [] then []
    else (if VariablesMatch(vars, list[0]) then [list[0]] else []) + Matching(list[1..], vars)
  }

  lemma {:induction false} MatchingAppend(a: seq<MockedResponse>, b: seq<MockedResponse>, vars: Variables)
    ensures Matching(a + b, vars) == Matching(a, vars) + Matching(b, vars)
  {
    if a == [] {
      assert a + b == b;
    } else {
      var head := if VariablesMatch(vars, a[0]) then [a[0]] else [];
      assert (a + b)[0] == a[0];
      assert (a + b)[1..] == a[1..] + b;
      MatchingAppend(a[1..], b, vars);
      ConcatAssociates(head, Matching(a[1..], vars), Matching(b, vars));
    }
  }

  /** Concatenation of lists of mocks is associative. */
  lemma ConcatAssociates(x: seq<MockedResponse>, y: seq<MockedResponse>, z: seq<MockedResponse>)
    ensures x + (y + z) == (x + y) + z
  {
  }

  // ---------------------------------------------------------------------------
  // Consuming the matched mock

  /** The matched mock after `response.result = newData()`, when it has `newData`;
      `call` gives what calling a result function returns. */
  function Regenerated(m: MockedResponse, call: ResultFunction -> FetchResult): (r: MockedResponse)
    ensures r.request == m.request && r.error == m.error && r.delay == m.delay && r.newData == m.newData
    ensures m.newData.Some? ==> r.result == Some(Plain(call(m.newData.value)))
    ensures m.newData.None? ==> r == m
  {
    match m.newData
    case None => m
    case Some(f) => m.(result := Some(Plain(call(f))))
  }

  /** The list after `splice(responseIndex, 1)` and, for a mock with `newData`, the
      `push` of its regenerated self. */
  function Consume(list: seq<MockedResponse>, i: nat, call: ResultFunction -> FetchResult): (r: seq<MockedResponse>)
    requires i < |list|
    ensures list[i].newData.None? ==> |r| == |list| - 1
    ensures list[i].newData.Some? ==> |r| == |list| && r[|list| - 1] == Regenerated(list[i], call)
    ensures forall j | 0 <= j < i :: r[j] == list[j]
    ensures forall j | i <= j < |list| - 1 :: r[j] == list[j + 1]
  {
    list[..i] + list[i + 1..] + (if list[i].newData.Some? then [Regenerated(list[i], call)] else [])
  }

  lemma MatchingSingle(m: MockedResponse, vars: Variables)
    ensures Matching([m], vars) == if VariablesMatch(vars, m) then [m] else []
  {
    assert [m][1..] == [];
  }

  /** Without a match there are no matching mocks. */
  lemma {:induction false} NoMatchNoMatching(list: seq<MockedResponse>, vars: Variables)
    requires FirstMatch(list, vars).None?
    ensures Matching(list, vars) == []
  {
    if list != [] {
      NoMatchNoMatching(list[1..], vars);
    }
  }

  /** Around the first match, the matching mocks are that mock and the matching mocks
      after it. */
  lemma {:induction false} MatchingAroundFirst(list: seq<MockedResponse>, vars: Variables)
    requires FirstMatch(list, vars).Some?
    ensures var i := FirstMatch(list, vars).value;
            Matching(list, vars) == [list[i]] + Matching(list[i + 1..], vars)
            && Matching(list[..i] + list[i + 1..], vars) == Matching(list[i + 1..], vars)
  {
    var i := FirstMatch(list, vars).value;
    var before, after := list[..i], list[i + 1..];
    assert FirstMatch(before, vars).None?;
    NoMatchNoMatching(before, vars);
    assert list == before + ([list[i]] + after);
    MatchingAppend(before, [list[i]] + after, vars);
    MatchingAppend([list[i]], after, vars);
    MatchingSingle(list[i], vars);
    MatchingAppend(before, after, vars);
  }

  /** Requests with the same variables are served in order: the request gets the first
      matching mock, and the mocks the next such request can match are the remaining
      ones, followed by the regenerated mock when it has `newData`. */
  lemma ConsumeFirstMatch(list: seq<MockedResponse>, vars: Variables, call: ResultFunction -> FetchResult)
    requires FirstMatch(list, vars).Some?
    ensures var i := FirstMatch(list, vars).value;
            var ms := Matching(list, vars);
            ms != [] && list[i] == ms[0]
            && Matching(Consume(list, i, call), vars)
               == ms[1..] + (if list[i].newData.Some? then [Regenerated(list[i], call)] else [])
  {
    var i := FirstMatch(list, vars).value;
    var tail := if list[i].newData.Some? then [Regenerated(list[i], call)] else [];
    MatchingAroundFirst(list, vars);
    var rest := list[..i] + list[i + 1..];
    assert Consume(list, i, call) == rest + tail;
    MatchingAppend(rest, tail, vars);
    if tail != [] {
      MatchingSingle(Regenerated(list[i], call), vars);
    }
  }

  /** Consuming keeps every mock of the list under the key the list is filed under. */
  lemma ConsumeKeepsKeys(tools: DocumentTools, addTypename: bool, list: seq<MockedResponse>, i: nat,
                         call: ResultFunction -> FetchResult, key: string)
    requires i < |list|
    requires forall m | m in list :: KeyOf(tools, addTypename, m) == key
    ensures forall m | m in Consume(list, i, call) :: KeyOf(tools, addTypename, m) == key
  {
    forall m | m in Consume(list, i, call)
      ensures KeyOf(tools, addTypename, m) == key
    {
      var j :| 0 <= j < |Consume(list, i, call)| && Consume(list, i, call)[j] == m;
      if j < i {
        assert m == list[j];
      } else if j < |list| - 1 {
        assert m == list[j + 1];
      } else {
        assert m.request == list[i].request;
        assert KeyOf(tools, addTypename, list[i]) == key;
      }
    }
  }

  /** Serving a request from a consistently keyed table keeps it consistently keyed. */
  lemma ServeKeepsKeyedConsistently(tools: DocumentTools, addTypename: bool, table: Table, operation: GraphQLRequest,
                                    call: ResultFunction -> FetchResult)
    requires KeyedConsistently(tools, addTypename, table)
    requires FirstMatch(Lookup(table, RequestToKey(tools, operation, addTypename)),
                        VariablesOrEmpty(operation.variables)).Some?
    ensures var key := RequestToKey(tools, operation, addTypename);
            var list := Lookup(table, key);
            var i := FirstMatch(list, VariablesOrEmpty(operation.variables)).value;
            KeyedConsistently(tools, addTypename, table[key := Consume(list, i, call)])
  {
    var key := RequestToKey(tools, operation, addTypename);
    var list := Lookup(table, key);
    var i := FirstMatch(list, VariablesOrEmpty(operation.variables)).value;
    assert forall m | m in list :: KeyOf(tools, addTypename, m) == key by {
      forall m | m in list ensures KeyOf(tools, addTypename, m) == key {
        assert key in table && m in table[key];
      }
    }
    ConsumeKeepsKeys(tools, addTypename, list, i, call, key);
  }

  /** In a consistently keyed table, the mock a request matches has the same printed
      query as the request, and structurally equal variables. */
  lemma MatchedMockFitsRequest(tools: DocumentTools, addTypename: bool, table: Table, operation: GraphQLRequest)
    requires KeyedConsistently(tools, addTypename, table)
    requires FirstMatch(Lookup(table, RequestToKey(tools, operation, addTypename)),
                        VariablesOrEmpty(operation.variables)).Some?
    ensures var list := Lookup(table, RequestToKey(tools, operation, addTypename));
            var m := list[FirstMatch(list, VariablesOrEmpty(operation.variables)).value];
            PrintedQuery(tools, m.request, addTypename) == PrintedQuery(tools, operation, addTypename)
            && VariablesOrEmpty(m.request.variables) == VariablesOrEmpty(operation.variables)
  {
    var key := RequestToKey(tools, operation, addTypename);
    var list := Lookup(table, key);
    var m := list[FirstMatch(list, VariablesOrEmpty(operation.variables)).value];
    assert key in table && m in table[key];
    assert KeyOf(tools, addTypename, m) == key;
    SameKeyIffSamePrintedQuery(tools, m.request, operation, addTypename);
    assert RequestToKey(tools, m.request, addTypename) == RequestToKey(tools, operation, addTypename);
  }

  // ---------------------------------------------------------------------------
  // Settling

  /** What the timer of a request delivers. */
  datatype Outcome =
    | ConfigError(error: Error)
    | ResponseError(error: Error)
    | NextThenComplete(next: FetchResult)

  /** The outcome for the matched (and, with `newData`, regenerated) mock: a mock with
      neither `result` nor `error` is a configuration error; otherwise its `error`
      takes precedence over its `result`; a result function is called for the value. */
  function Settle(m: MockedResponse, key: string, call: ResultFunction -> FetchResult): (o: Outcome)
    ensures o.ConfigError? <==> m.result.None? && m.error.None?
    ensures o.ConfigError? ==> o.error == MissingResultOrError(key)
    ensures m.error.Some? ==> o == ResponseError(m.error.value)
    ensures o.NextThenComplete? ==> m.error.None? && m.result.Some?
    ensures o.ResponseError? ==> m.error.Some?
    ensures m.error.None? && m.result.Some? && m.result.value.Plain? ==> o == NextThenComplete(m.result.value.fetchResult)
    ensures m.error.None? && m.result.Some? && m.result.value.Thunk? ==> o == NextThenComplete(call(m.result.value.fn))
  {
    if m.result.None? && m.error.None? then ConfigError(MissingResultOrError(key))
    else if m.error.Some? then ResponseError(m.error.value)
    else match m.result.value
      case Plain(r) => NextThenComplete(r)
      case Thunk(f) => NextThenComplete(call(f))
  }

  /** A regenerated mock always has a result, so it never settles with a configuration
      error, and without an error of its own it delivers the freshly generated result. */
  lemma RegeneratedDelivers(m: MockedResponse, key: string, call: ResultFunction -> FetchResult)
    requires m.newData.Some?
    ensures !Settle(Regenerated(m, call), key, call).ConfigError?
    ensures m.error.None? ==> Settle(Regenerated(m, call), key, call) == NextThenComplete(call(m.newData.value))
  {
  }

  /** `response && response.delay || 0` */
  function DelayOf(response: Option<MockedResponse>): int
  {
    match response
    case None => 0
    case Some(m) => match m.delay
      case None => 0
      case Some(d) => d
  }

  // ---------------------------------------------------------------------------
  // Delivery to the observer

  /** What the link's `onError` hook does with a configuration error. */
  datatype HookResult = ReturnedFalse | ReturnedOther | Threw(thrown: Error)

  datatype Event = Next(result: FetchResult) | ErrorEvent(error: Error) | Complete

  /** A notification sequence obeys the observer protocol: nothing follows an error or
      a completion. */
  predicate EndsOnce(events: seq<Event>)
  {
    forall j | 0 <= j < |events| - 1 :: events[j].Next?
  }

  /** The calls the timer makes on the observer. A configuration error goes to the
      `onError` hook first: it is passed to `observer.error` unless the hook returns
      `false`, and whatever the hook throws is passed instead. */
  function Notify(o: Outcome, onError: Error -> HookResult): (events: seq<Event>)
    ensures EndsOnce(events) && |events| <= 2
    ensures events == [] <==> o.ConfigError? && onError(o.error).ReturnedFalse?
    ensures o.ResponseError? ==> events == [ErrorEvent(o.error)]
    ensures o.NextThenComplete? ==> events == [Next(o.next), Complete]
    ensures o.ConfigError? && onError(o.error).ReturnedOther? ==> events == [ErrorEvent(o.error)]
    ensures o.ConfigError? && onError(o.error).Threw? ==> events == [ErrorEvent(onError(o.error).thrown)]
  {
    match o
    case ConfigError(e) =>
      (match onError(e)
       case ReturnedFalse => []
       case ReturnedOther => [ErrorEvent(e)]
       case Threw(x) => [ErrorEvent(x)])
    case ResponseError(e) => [ErrorEvent(e)]
    case NextThenComplete(r) => [Next(r), Complete]
  }

  // ---------------------------------------------------------------------------
  // mockSingleLink

  /** An argument of `mockSingleLink`: a mocked response or a boolean. */
  datatype Argument = Mock(response: MockedResponse) | Flag(value: bool)

  /** Splits the arguments of `mockSingleLink` into the mocks and the `addTypename`
      flag: a trailing boolean is the flag; otherwise every argument is a mock and the
      flag is `true`. */
  function SplitArguments(args: seq<Argument>): (r: (seq<Argument>, bool))
    ensures |args| > 0 && args[|args| - 1].Flag? ==> r.0 + [Flag(r.1)] == args
    ensures !(|args| > 0 && args[|args| - 1].Flag?) ==> r == (args, true)
  {
    if |args| > 0 && args[|args| - 1].Flag? then (args[..|args| - 1], args[|args| - 1].value)
    else (args, true)
  }

  /** A boolean given last is taken as the flag, and only it. */
  lemma SplitTrailingFlag(mocks: seq<Argument>, addTypename: bool)
    ensures SplitArguments(mocks + [Flag(addTypename)]) == (mocks, addTypename)
  {
    assert (mocks + [Flag(addTypename)])[..|mocks|] == mocks;
  }

  /** With no boolean at the end, every argument is a mock and the flag is `true`. */
  lemma SplitWithoutFlag(mocks: seq<Argument>)
    requires forall a | a in mocks :: a.Mock?
    ensures SplitArguments(mocks) == (mocks, true)
  {
    if |mocks| > 0 {
      assert mocks[|mocks| - 1] in mocks;
    }
  }
}
