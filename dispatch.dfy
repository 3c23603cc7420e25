/** The per-call dispatch table of the POST handler (app/api/route.ts) and
    its application to a whole batch of pending tool calls. */
module ToolDispatch {
  import opened Wrappers

  /** The arguments of a tool call after `JSON.parse`: either an object whose
      fields are strings, or text that is not valid JSON (the parse throws). */
  datatype Arguments = Parsed(fields: map<string, string>) | Malformed

  /** A pending tool call issued by the hosted assistant. */
  datatype ToolCall = ToolCall(id: string, name: string, args: Arguments)

  /** One entry of `tool_outputs`. `output` is `None` when the handler read an
      argument that was not there (JavaScript's `undefined`). */
  datatype ToolOutput = ToolOutput(toolCallId: string, output: Option<string>)

  /** What a tool call can throw: the `JSON.parse` failure, or the
      "Unknown tool call function" error naming the function. */
  datatype DispatchError = MalformedArguments(callId: string) | UnknownTool(name: string)

  /** One record of the fixed stock list. The prices and deltas of the
      source are number literals with integral values (`2.00` is the number 2,
      which `JSON.stringify` writes as `2`), so they are kept as integers. */
  datatype Stock = Stock(symbol: string, price: int, delta: int)

  /** The four function names the dispatch table recognises. */
  const KnownTools: set<string> := {"listStocks", "showStockPrice", "showStockPurchase", "getEvents"}

  /** The fixed list returned by `listStocks`. */
  function ListStocks(): (r: seq<Stock>)
    ensures |r| == 3
    ensures r[0].symbol == "AAPL" && r[1].symbol == "GOOGL" && r[2].symbol == "TSLA"
  {
    [Stock("AAPL", 150, 2), Stock("GOOGL", 2500, -10), Stock("TSLA", 700, 5)]
  }

  /** The decimal text of an integer, as `JSON.stringify` writes the small
      integral numbers of the stock list (magnitudes below 1e21, which it
      would write in exponent form). */
  function DecimalText(n: int): string
    decreases if n < 0 then 1 - n else n
  {
    if n < 0 then "-" + DecimalText(-n)
    else if n < 10 then ["0123456789"[n]]
    else DecimalText(n / 10) + ["0123456789"[n % 10]]
  }

  /** `JSON.stringify` of one stock record: its fields in declaration order. */
  function StockJson(s: Stock): string {
    "{\"symbol\":\"" + s.symbol + "\",\"price\":" + DecimalText(s.price)
    + ",\"delta\":" + DecimalText(s.delta) + "}"
  }

  /** `JSON.stringify` of a list of stock records: the records, comma-separated, in brackets. */
  function StockListJson(stocks: seq<Stock>): string {
    "[" + JoinRecords(stocks) + "]"
  }

  function JoinRecords(stocks: seq<Stock>): string {
    if stocks == [] then ""
    else if |stocks| == 1 then StockJson(stocks[0])
    else StockJson(stocks[0]) + "," + JoinRecords(stocks[1..])
  }

  /** The texts of the three records, one lemma each to keep the proofs small. */
  lemma AaplText()
    ensures StockJson(ListStocks()[0]) == "{\"symbol\":\"AAPL\",\"price\":150,\"delta\":2}"
  {
  }

  lemma GooglText()
    ensures StockJson(ListStocks()[1]) == "{\"symbol\":\"GOOGL\",\"price\":2500,\"delta\":-10}"
  {
  }

  lemma TslaText()
    ensures StockJson(ListStocks()[2]) == "{\"symbol\":\"TSLA\",\"price\":700,\"delta\":5}"
  {
  }

  /** Three records are joined as the first, a comma, then the other two joined. */
  lemma JoinThree(stocks: seq<Stock>)
    requires |stocks| == 3
    ensures JoinRecords(stocks) == StockJson(stocks[0]) + "," + StockJson(stocks[1]) + "," + StockJson(stocks[2])
  {
    var s0, s1, s2 := StockJson(stocks[0]), StockJson(stocks[1]), StockJson(stocks[2]);
    assert stocks[1..][1..] == [stocks[2]];
    assert JoinRecords(stocks[1..]) == s1 + "," + s2;
    assert JoinRecords(stocks) == s0 + "," + (s1 + "," + s2);
    assert s0 + "," + (s1 + "," + s2) == s0 + "," + s1 + "," + s2;
  }

  /** `JSON.stringify(listStocks())`: the output of a `listStocks` call. */
  function StocksJson(): (s: string)
    ensures s == "[" + "{\"symbol\":\"AAPL\",\"price\":150,\"delta\":2}"
               + "," + "{\"symbol\":\"GOOGL\",\"price\":2500,\"delta\":-10}"
               + "," + "{\"symbol\":\"TSLA\",\"price\":700,\"delta\":5}" + "]"
  {
    var stocks := ListStocks();
    AaplText();
    GooglText();
    TslaText();
    JoinThree(stocks);
    StockListJson(stocks)
  }

  /** `parameters.symbol`: the field's value, or `undefined` when it is absent. */
  function Symbol(fields: map<string, string>): (r: Option<string>)
    ensures r.Some? <==> "symbol" in fields
    ensures r.Some? ==> r.value == fields["symbol"]
  {
    if "symbol" in fields then Some(fields["symbol"]) else None
  }

  /** The callback of `tool_calls.map`: parse the arguments, then switch on
      the function name. */
  function Dispatch(c: ToolCall): (r: Result<ToolOutput, DispatchError>)
    // the output is always tagged with the id of the call it answers
    ensures r.Ok? ==> r.value.toolCallId == c.id
    // a call succeeds exactly when its arguments parse and its name is known
    ensures r.Ok? <==> c.args.Parsed? && c.name in KnownTools
    // the parse comes first: malformed arguments fail whatever the name
    ensures c.args.Malformed? ==> r == Err(MalformedArguments(c.id))
    ensures c.args.Parsed? && c.name !in KnownTools ==> r == Err(UnknownTool(c.name))
    // listStocks and getEvents yield constants that do not depend on the arguments
    ensures c.args.Parsed? && c.name == "listStocks" ==> r.Ok? && r.value.output == Some(StocksJson())
    ensures c.args.Parsed? && c.name == "getEvents" ==> r.Ok? && r.value.output == Some("news")
    // showStockPrice and showStockPurchase echo the symbol argument unchanged
    ensures c.args.Parsed? && c.name in {"showStockPrice", "showStockPurchase"} ==>
              r.Ok? && r.value.output == Symbol(c.args.fields)
  {
    match c.args
    case Malformed => Err(MalformedArguments(c.id))
    case Parsed(fields) =>
      if c.name == "listStocks" then Ok(ToolOutput(c.id, Some(StocksJson())))
      else if c.name == "showStockPrice" then Ok(ToolOutput(c.id, Symbol(fields)))
      else if c.name == "showStockPurchase" then Ok(ToolOutput(c.id, Symbol(fields)))
      else if c.name == "getEvents" then Ok(ToolOutput(c.id, Some("news")))
      else Err(UnknownTool(c.name))
  }

  /** `tool_calls.map(...)`: the callback is applied left to right and the first
      call that throws aborts the whole batch. */
  function DispatchAll(cs: seq<ToolCall>): (r: Result<seq<ToolOutput>, DispatchError>)
    // all or nothing: the batch succeeds exactly when every call does
    ensures r.Ok? <==> forall i {:trigger Dispatch(cs[i])} :: 0 <= i < |cs| ==> Dispatch(cs[i]).Ok?
    // one output per call, in the calls' order, each tagged with its call's id
    ensures r.Ok? ==> |r.value| == |cs|
    ensures r.Ok? ==> forall i {:trigger Dispatch(cs[i])} :: 0 <= i < |cs| ==>
              r.value[i] == Dispatch(cs[i]).value && r.value[i].toolCallId == cs[i].id
    // a failed batch reports the error of the first call that failed
    ensures r.Err? ==> exists i {:trigger Dispatch(cs[i])} :: 0 <= i < |cs| && Dispatch(cs[i]) == Err(r.error)
                                  && forall j {:trigger Dispatch(cs[j])} :: 0 <= j < i ==> Dispatch(cs[j]).Ok?
  {
    if cs == [] then Ok([])
    else
      match Dispatch(cs[0])
      case Err(e) => Err(e)
      case Ok(o) =>
        var rest := DispatchAll(cs[1..]);
        match rest
        case Err(e) =>
          assert forall j :: 1 <= j < |cs| ==> cs[j] == cs[1..][j - 1];
          Err(e)
        case Ok(os) =>
          var outs := [o] + os;
          assert forall j :: 0 <= j < |cs| ==> Dispatch(cs[j]).Ok? && outs[j] == Dispatch(cs[j]).value by {
            forall j | 0 <= j < |cs| ensures Dispatch(cs[j]).Ok? && outs[j] == Dispatch(cs[j]).value {
              if j > 0 {
                assert cs[j] == cs[1..][j - 1] && outs[j] == os[j - 1];
              }
            }
          }
          Ok(outs)
  }

  /** An unknown function name anywhere in the batch makes the whole batch
      fail, so no partial list of outputs ever exists. */
  lemma UnknownToolFailsBatch(cs: seq<ToolCall>, k: nat)
    requires k < |cs| && cs[k].name !in KnownTools
    ensures DispatchAll(cs).Err?
  {
    assert !Dispatch(cs[k]).Ok?;
  }

  /** A batch whose first part fails fails with that part's error, whatever follows. */
  lemma {:induction false} DispatchAllPrefixError(a: seq<ToolCall>, b: seq<ToolCall>)
    requires DispatchAll(a).Err?
    ensures DispatchAll(a + b) == DispatchAll(a)
  {
    var ab := a + b;
    assert ab[0] == a[0];
    assert ab[1..] == a[1..] + b;
    if Dispatch(a[0]).Ok? {
      DispatchAllPrefixError(a[1..], b);
    }
  }

  /** When the first call that fails is one whose arguments parse but whose
      name is unknown, the batch fails with the "Unknown tool call function"
      error naming that function. */
  lemma {:induction false} FirstFailureUnknownTool(cs: seq<ToolCall>, i: nat)
    requires i < |cs|
    requires forall j :: 0 <= j < i ==> Dispatch(cs[j]).Ok?
    requires cs[i].args.Parsed? && cs[i].name !in KnownTools
    ensures DispatchAll(cs) == Err(UnknownTool(cs[i].name))
  {
    if i > 0 {
      assert Dispatch(cs[0]).Ok?;
      assert forall j :: 0 <= j < i - 1 ==> cs[1..][j] == cs[j + 1];
      FirstFailureUnknownTool(cs[1..], i - 1);
    }
  }

  /** Dispatching a batch in two halves and joining the outputs is the same as
      dispatching it at once; when only the second half fails, its error is the batch's. */
  lemma {:induction false} DispatchAllAppend(a: seq<ToolCall>, b: seq<ToolCall>)
    requires DispatchAll(a).Ok?
    ensures DispatchAll(b).Ok? ==> DispatchAll(a + b) == Ok(DispatchAll(a).value + DispatchAll(b).value)
    ensures DispatchAll(b).Err? ==> DispatchAll(a + b) == DispatchAll(b)
  {
    if a == [] {
      assert a + b == b;
      assert DispatchAll(a).value == [];
      if DispatchAll(b).Ok? {
        assert [] + DispatchAll(b).value == DispatchAll(b).value;
      }
    } else {
      var ab := a + b;
      assert ab[0] == a[0];
      assert ab[1..] == a[1..] + b;
      DispatchAllAppend(a[1..], b);
      var o := Dispatch(a[0]).value;
      var front := DispatchAll(a[1..]).value;
      assert DispatchAll(a) == Ok([o] + front);
      if DispatchAll(b).Ok? {
        var back := DispatchAll(b).value;
        assert DispatchAll(ab) == Ok([o] + (front + back));
        assert [o] + (front + back) == ([o] + front) + back;
      }
    }
  }

  /** A three-call batch: `listStocks`, `showStockPrice` with symbol AAPL and
      `getEvents` give the stock list, "AAPL" and "news", each tagged with its
      call's id. */
  lemma ExampleBatch(id1: string, id2: string, id3: string)
    ensures DispatchAll([ToolCall(id1, "listStocks", Parsed(map[])),
                         ToolCall(id2, "showStockPrice", Parsed(map["symbol" := "AAPL"])),
                         ToolCall(id3, "getEvents", Parsed(map[]))])
         == Ok([ToolOutput(id1, Some(StocksJson())),
                ToolOutput(id2, Some("AAPL")),
                ToolOutput(id3, Some("news"))])
  {
    var cs := [ToolCall(id1, "listStocks", Parsed(map[])),
               ToolCall(id2, "showStockPrice", Parsed(map["symbol" := "AAPL"])),
               ToolCall(id3, "getEvents", Parsed(map[]))];
    var o1, o2, o3 := ToolOutput(id1, Some(StocksJson())), ToolOutput(id2, Some("AAPL")), ToolOutput(id3, Some("news"));
    assert Dispatch(cs[1]) == Ok(o2);
    assert cs[1..][1..] == [cs[2]] && [cs[2]][1..] == [];
    assert Dispatch(cs[2]) == Ok(o3);
    assert DispatchAll([]) == Ok([]) && [o3] + [] == [o3];
    assert DispatchAll([cs[2]]) == Ok([o3]);
    assert DispatchAll(cs[1..]) == Ok([o2] + [o3]);
    assert [o2] + [o3] == [o2, o3];
    assert DispatchAll(cs) == Ok([o1] + [o2, o3]);
    assert [o1] + [o2, o3] == [o1, o2, o3];
  }
}
