/** The `MockLink` class of src/utilities/testing/mocking/mockLink.ts, which serves
    requests from a table of mocked responses, and `mockSingleLink`, which builds
    one from a list of arguments. The rules the class follows are stated as
    functions and lemmas in module MockResponses. */
module Mocking {
  import opened Options
  import opened MockResponses

  /** The `find` over a key's list: the first mock whose variables match, and its
      index, which stays 0 when nothing matches. */
  method FindResponse(list: seq<MockedResponse>, vars: Variables) returns (response: Option<MockedResponse>, responseIndex: nat)
    ensures match FirstMatch(list, vars)
            case None => response.None? && responseIndex == 0
            case Some(i) => response == Some(list[i]) && responseIndex == i
  {
    responseIndex := 0;
    response := None;
    var index := 0;
    while index < |list|
      invariant 0 <= index <= |list|
      invariant forall j | 0 <= j < index :: !VariablesMatch(vars, list[j])
    {
      if VariablesMatch(vars, list[index]) {
        responseIndex := index;
        response := Some(list[index]);
        return;
      }
      index := index + 1;
    }
  }

  /** The responses carried by mock arguments. */
  function MocksOf(args: seq<Argument>): seq<MockedResponse>
    requires forall a | a in args :: a.Mock?
  {
    seq(|args|, i requires 0 <= i < |args| => args[i].response)
  }

  class MockLink {
    /** The GraphQL-document helpers; fixed for the life of the link. */
    const tools: DocumentTools
    /** The operation of the latest request. */
    var operation: Option<GraphQLRequest>
    var addTypename: bool
    var mockedResponsesByKey: Table

    /** Every mock sits in the list of its own request key. */
    ghost predicate Valid()
      reads this
    {
      KeyedConsistently(tools, addTypename, mockedResponsesByKey)
    }

    /** Files the mocks one by one, in the order given; `None` stands for the missing
        array mockLink.ts tolerates, and an omitted `addTypename` (`None`) for the
        default `true`. */
    constructor (tools: DocumentTools, mockedResponses: Option<seq<MockedResponse>>, addTypename: Option<bool>)
      requires mockedResponses.Some? ==> forall m | m in mockedResponses.value :: CanNormalize(tools, m)
      ensures this.tools == tools && operation.None?
      ensures this.addTypename == match addTypename
                                  case None => true
                                  case Some(b) => b
      ensures Valid()
      ensures mockedResponsesByKey == match mockedResponses
                                      case None => map[]
                                      case Some(ms) => FileAll(tools, this.addTypename, map[], NormalizeAll(tools, ms))
    {
      this.tools := tools;
      var flag := match addTypename
                  case None => true
                  case Some(b) => b;
      this.addTypename := flag;
      operation := None;
      mockedResponsesByKey := map[];
      new;
      if mockedResponses.Some? {
        var ms := mockedResponses.value;
        ghost var ns := NormalizeAll(tools, ms);
        for i := 0 to |ms|
          invariant this.tools == tools && this.addTypename == flag && operation.None?
          invariant FileAll(tools, flag, mockedResponsesByKey, ns[i..]) == FileAll(tools, flag, map[], ns)
          invariant Valid()
        {
          assert ms[i] in ms;
          AddMockedResponse(ms[i]);
          assert ns[i..][0] == ns[i] && ns[i..][1..] == ns[i + 1..];
        }
      }
    }

    /** Appends the normalized mock to the end of its key's list, creating the list
        when the key is new; every other key keeps its list. */
    method AddMockedResponse(mockedResponse: MockedResponse)
      requires CanNormalize(tools, mockedResponse)
      modifies this
      ensures addTypename == old(addTypename) && operation == old(operation)
      ensures var n := Normalize(tools, mockedResponse);
              var key := KeyOf(tools, addTypename, n);
              mockedResponsesByKey == old(mockedResponsesByKey)[key := Lookup(old(mockedResponsesByKey), key) + [n]]
      ensures old(Valid()) ==> Valid()
    {
      var normalizedMockedResponse := Normalize(tools, mockedResponse);
      var key := RequestToKey(tools, normalizedMockedResponse.request, addTypename);
      var mockedResponses: seq<MockedResponse>;
      if key !in mockedResponsesByKey {
        mockedResponses := [];
        mockedResponsesByKey := mockedResponsesByKey[key := mockedResponses];
      } else {
        mockedResponses := mockedResponsesByKey[key];
      }
      mockedResponsesByKey := mockedResponsesByKey[key := mockedResponses + [normalizedMockedResponse]];
    }

    /** Serves `operation` from the first mock of its key's list whose variables
        match. Without one, the table is unchanged and the outcome is the "no more
        mocked responses" configuration error. Otherwise exactly that mock is taken
        out of the list, keeping the order of the others; a mock with `newData` gets
        a freshly generated result and goes back at the end; and the outcome is what
        that mock settles to. `call` gives what calling a result function returns. */
    method Request(operation: GraphQLRequest, call: ResultFunction -> FetchResult) returns (outcome: Outcome, delay: int)
      modifies this
      ensures addTypename == old(addTypename) && this.operation == Some(operation)
      ensures var key := RequestToKey(tools, operation, addTypename);
              var list := Lookup(old(mockedResponsesByKey), key);
              match FirstMatch(list, VariablesOrEmpty(operation.variables))
              case None =>
                mockedResponsesByKey == old(mockedResponsesByKey)
                && outcome == ConfigError(NoMoreMockedResponses(operation.query, operation.variables))
                && delay == 0
              case Some(i) =>
                var response := Regenerated(list[i], call);
                mockedResponsesByKey == old(mockedResponsesByKey)[key := Consume(list, i, call)]
                && outcome == Settle(response, key, call)
                && delay == DelayOf(Some(response))
                && delay == DelayOf(Some(list[i]))
                && (old(Valid()) ==> PrintedQuery(tools, response.request, addTypename)
                                     == PrintedQuery(tools, operation, addTypename))
      ensures old(Valid()) ==> Valid()
    {
      this.operation := Some(operation);
      var key := RequestToKey(tools, operation, addTypename);
      var list := Lookup(mockedResponsesByKey, key);
      var response, responseIndex := FindResponse(list, VariablesOrEmpty(operation.variables));
      // mockLink.ts also tests `typeof responseIndex === 'undefined'`, which never
      // holds: the index starts at 0.
      if response.None? {
        outcome := ConfigError(NoMoreMockedResponses(operation.query, operation.variables));
        delay := DelayOf(response);
      } else {
        ghost var table := mockedResponsesByKey;
        var remaining := list[..responseIndex] + list[responseIndex + 1..];
        var r := response.value;
        if r.newData.Some? {
          r := r.(result := Some(Plain(call(r.newData.value))));
          remaining := remaining + [r];
        }
        assert r == Regenerated(list[responseIndex], call);
        assert remaining == Consume(list, responseIndex, call);
        mockedResponsesByKey := mockedResponsesByKey[key := remaining];
        outcome := Settle(r, key, call);
        delay := DelayOf(Some(r));
        if KeyedConsistently(tools, addTypename, table) {
          ServeKeepsKeyedConsistently(tools, addTypename, table, operation, call);
          MatchedMockFitsRequest(tools, addTypename, table, operation);
        }
      }
    }
  }

  /** `mockSingleLink`: a link over the mocks among the arguments, with the
      `addTypename` flag a trailing boolean gives (`true` without one). */
  method MockSingleLink(tools: DocumentTools, mockedResponses: seq<Argument>) returns (link: MockLink)
    requires forall a | a in SplitArguments(mockedResponses).0 :: a.Mock? && CanNormalize(tools, a.response)
    ensures fresh(link) && link.tools == tools && link.operation.None? && link.Valid()
    ensures link.addTypename == SplitArguments(mockedResponses).1
    ensures link.mockedResponsesByKey
         == FileAll(tools, link.addTypename, map[], NormalizeAll(tools, MocksOf(SplitArguments(mockedResponses).0)))
  {
    var (mocks, addTypename) := SplitArguments(mockedResponses);
    link := new MockLink(tools, Some(MocksOf(mocks)), Some(addTypename));
  }
}
