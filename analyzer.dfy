/** The response analyzer of analyzer/analyzer.go: runs every parse function on a
    response and collects their data and errors, forcing each emitted request's
    depth to one more than the response's. */
module Analyzer {
  import opened Common
  import opened Base
  import GoStrings

  /** What a parse function returns: its data list and its error list, either of
      which may hold nil entries. A nil list behaves as an empty one. */
  datatype ParseResult = ParseResult(data: seq<Option<Data>>, errors: seq<Option<Error>>)

  /** `ParseResponse`: an external, pure parse function. */
  type ParseResponse = (HttpResponse, uint32) -> ParseResult

  const ParserListInvalidMsg: string := "The response paeser list is invalid!"
  const HttpRespInvalidMsg: string := "The http resp is invalid!"

  function NilParserMsg(i: nat): string
  {
    "The document parser [" + GoStrings.NatToString(i) + "] id valid!"
  }

  /** The datum `appendDataList` appends for `data`, if any: nil is dropped, a request
      is re-made with depth `respDepth + 1` unless it already has it, anything else is kept. */
  function Normalized(data: Option<Data>, respDepth: uint32): (r: seq<Data>)
    ensures |r| == if data.Some? then 1 else 0
    ensures data.Some? && !data.value.ReqData? ==> r == [data.value]
    ensures data.Some? && data.value.ReqData? ==>
              r == [ReqData(Request(data.value.req.httpReq, Uint32Succ(respDepth)))]
  {
    match data
    case None => []
    case Some(ReqData(req)) =>
      var newDepth := Uint32Succ(respDepth);
      if req.Depth() != newDepth then [ReqData(NewRequest(req.HttpReq(), newDepth))] else [ReqData(req)]
    case Some(d) => [d]
  }

  function AppendDataList(dataList: seq<Data>, data: Option<Data>, respDepth: uint32): (r: seq<Data>)
    ensures |r| == |dataList| + (if data.Some? then 1 else 0) && r[..|dataList|] == dataList
    ensures |r| > |dataList| ==> r[|dataList|..] == Normalized(data, respDepth)
  {
    dataList + Normalized(data, respDepth)
  }

  function AppendErrorList(errorList: seq<Error>, err: Option<Error>): (r: seq<Error>)
    ensures err.None? ==> r == errorList
    ensures err.Some? ==> r == errorList + [err.value]
  {
    match err
    case None => errorList
    case Some(e) => errorList + [e]
  }

  /** What the inner data loop appends for one parser's data list. */
  function CollectedData(ds: seq<Option<Data>>, respDepth: uint32): (r: seq<Data>)
    ensures |r| <= |ds|
    ensures forall x :: x in r && !x.ReqData? ==> Some(x) in ds
    decreases |ds|
  {
    if ds == [] then [] else CollectedData(ds[..|ds| - 1], respDepth) + Normalized(ds[|ds| - 1], respDepth)
  }

  /** What the inner error loop appends for one parser's error list. */
  function CollectedErrors(es: seq<Option<Error>>): (r: seq<Error>)
    ensures |r| <= |es|
    ensures forall e :: e in r ==> Some(e) in es
    decreases |es|
  {
    if es == [] then [] else AppendErrorList(CollectedErrors(es[..|es| - 1]), es[|es| - 1])
  }

  /** Data contributed by one parser: none for a nil parser. */
  function ParserData(p: Option<ParseResponse>, httpResp: HttpResponse, respDepth: uint32): (r: seq<Data>)
    ensures p.None? ==> r == []
    ensures p.Some? ==> |r| == CountSome(p.value(httpResp, respDepth).data)
  {
    match p
    case None => []
    case Some(f) =>
      CollectedDataShape(f(httpResp, respDepth).data, respDepth);
      CollectedData(f(httpResp, respDepth).data, respDepth)
  }

  /** Errors contributed by the parser at index `i`: one naming the index for a nil parser. */
  function ParserErrors(p: Option<ParseResponse>, i: nat, httpResp: HttpResponse, respDepth: uint32): (r: seq<Error>)
    ensures p.None? ==> r == [Error(NilParserMsg(i))]
    ensures p.Some? ==> |r| == CountSome(p.value(httpResp, respDepth).errors)
  {
    match p
    case None => [Error(NilParserMsg(i))]
    case Some(f) =>
      CollectedErrorsCount(f(httpResp, respDepth).errors);
      CollectedErrors(f(httpResp, respDepth).errors)
  }

  /** The data list after the loop has visited all of `ps`. */
  function LoopData(ps: seq<Option<ParseResponse>>, httpResp: HttpResponse, respDepth: uint32): (r: seq<Data>)
    ensures CountSome(ps) == 0 ==> r == []
    decreases |ps|
  {
    if ps == [] then []
    else LoopData(ps[..|ps| - 1], httpResp, respDepth) + ParserData(ps[|ps| - 1], httpResp, respDepth)
  }

  /** The error list after the loop has visited all of `ps`. */
  function LoopErrors(ps: seq<Option<ParseResponse>>, httpResp: HttpResponse, respDepth: uint32): (r: seq<Error>)
    ensures |r| >= |ps| - CountSome(ps)
    decreases |ps|
  {
    if ps == [] then []
    else LoopErrors(ps[..|ps| - 1], httpResp, respDepth) + ParserErrors(ps[|ps| - 1], |ps| - 1, httpResp, respDepth)
  }

  /** What `Analyze` returns for a (possibly nil) parser list and a response. */
  function AnalyzeResult(respParses: Option<seq<Option<ParseResponse>>>, resp: Response): (r: (seq<Data>, seq<Error>))
    ensures respParses.Some? && resp.HttpResp().Some? ==>
              var ps, httpResp, depth := respParses.value, resp.HttpResp().value, resp.Depth();
              && ChildDepths(r.0, Uint32Succ(depth))
              && |r.0| == DataCount(ps, httpResp, depth)
              && |r.1| == ErrorCount(ps, httpResp, depth)
  {
    if respParses.None? then ([], [Error(ParserListInvalidMsg)])
    else if resp.HttpResp().None? then ([], [Error(HttpRespInvalidMsg)])
    else
      LoopShape(respParses.value, resp.HttpResp().value, resp.Depth());
      LoopErrorCount(respParses.value, resp.HttpResp().value, resp.Depth());
      (LoopData(respParses.value, resp.HttpResp().value, resp.Depth()),
       LoopErrors(respParses.value, resp.HttpResp().value, resp.Depth()))
  }

  /** `myAnalyzer`. */
  class Analyzer {
    const id: uint32

    /** `NewAnalyzer`: the zero value. */
    constructor ()
      ensures id == 0
    {
      id := 0;
    }

    /** Always 0, whatever the `id` field holds. */
    function Id(): (r: uint32)
      ensures r == 0
    {
      0
    }

    method Analyze(respParses: Option<seq<Option<ParseResponse>>>, resp: Response)
      returns (dataList: seq<Data>, errorList: seq<Error>)
      ensures (dataList, errorList) == AnalyzeResult(respParses, resp)
    {
      if respParses.None? {
        return [], [Error(ParserListInvalidMsg)];
      }
      var httpResp := resp.HttpResp();
      if httpResp.None? {
        return [], [Error(HttpRespInvalidMsg)];
      }
      dataList, errorList := RunParsers(respParses.value, httpResp.value, resp.Depth());
    }
  }

  /** The loop of `Analyze` over the parser list. */
  method RunParsers(parses: seq<Option<ParseResponse>>, httpResp: HttpResponse, respDepth: uint32)
    returns (dataList: seq<Data>, errorList: seq<Error>)
    ensures dataList == LoopData(parses, httpResp, respDepth)
    ensures errorList == LoopErrors(parses, httpResp, respDepth)
  {
    dataList, errorList := [], [];
    for i := 0 to |parses|
      invariant dataList == LoopData(parses[..i], httpResp, respDepth)
      invariant errorList == LoopErrors(parses[..i], httpResp, respDepth)
    {
      var respParser := parses[i];
      assert parses[..i + 1] == parses[..i] + [respParser];
      LoopDataSnoc(parses[..i], respParser, httpResp, respDepth);
      LoopErrorsSnoc(parses[..i], respParser, httpResp, respDepth);
      if respParser.None? {
        errorList := errorList + [Error(NilParserMsg(i))];
        continue;
      }
      var res := respParser.value(httpResp, respDepth);
      dataList := AppendAllData(dataList, res.data, respDepth);
      errorList := AppendAllErrors(errorList, res.errors);
    }
    assert parses[..|parses|] == parses;
  }

  /** The inner loop over one parser's data list. */
  method AppendAllData(dataList: seq<Data>, pDataList: seq<Option<Data>>, respDepth: uint32) returns (r: seq<Data>)
    ensures r == dataList + CollectedData(pDataList, respDepth)
  {
    r := dataList;
    for j := 0 to |pDataList|
      invariant r == dataList + CollectedData(pDataList[..j], respDepth)
    {
      assert pDataList[..j + 1] == pDataList[..j] + [pDataList[j]];
      CollectedDataSnoc(pDataList[..j], pDataList[j], respDepth);
      r := AppendDataList(r, pDataList[j], respDepth);
    }
    assert pDataList[..|pDataList|] == pDataList;
  }

  /** The inner loop over one parser's error list. */
  method AppendAllErrors(errorList: seq<Error>, pErrorList: seq<Option<Error>>) returns (r: seq<Error>)
    ensures r == errorList + CollectedErrors(pErrorList)
  {
    r := errorList;
    for j := 0 to |pErrorList|
      invariant r == errorList + CollectedErrors(pErrorList[..j])
    {
      assert pErrorList[..j + 1] == pErrorList[..j] + [pErrorList[j]];
      CollectedErrorsSnoc(pErrorList[..j], pErrorList[j]);
      r := AppendErrorList(r, pErrorList[j]);
    }
    assert pErrorList[..|pErrorList|] == pErrorList;
  }

  lemma CollectedDataSnoc(ds: seq<Option<Data>>, d: Option<Data>, respDepth: uint32)
    ensures CollectedData(ds + [d], respDepth) == CollectedData(ds, respDepth) + Normalized(d, respDepth)
  {
    assert (ds + [d])[..|ds|] == ds;
  }

  lemma CollectedErrorsSnoc(es: seq<Option<Error>>, e: Option<Error>)
    ensures CollectedErrors(es + [e]) == AppendErrorList(CollectedErrors(es), e)
  {
    assert (es + [e])[..|es|] == es;
  }

  lemma LoopErrorsSnoc(ps: seq<Option<ParseResponse>>, p: Option<ParseResponse>, httpResp: HttpResponse, respDepth: uint32)
    ensures LoopErrors(ps + [p], httpResp, respDepth)
         == LoopErrors(ps, httpResp, respDepth) + ParserErrors(p, |ps|, httpResp, respDepth)
  {
    assert (ps + [p])[..|ps|] == ps;
  }

  /** Count of non-nil entries. */
  function CountSome<T>(xs: seq<Option<T>>): nat
    decreases |xs|
  {
    if xs == [] then 0 else CountSome(xs[..|xs| - 1]) + (if xs[|xs| - 1].Some? then 1 else 0)
  }

  /** Every request one parser's data yields has depth `respDepth + 1` (mod 2^32);
      the number of data equals the number of non-nil entries. */
  lemma {:induction false} CollectedDataShape(ds: seq<Option<Data>>, respDepth: uint32)
    ensures var r := CollectedData(ds, respDepth);
      |r| == CountSome(ds)
      && forall k :: 0 <= k < |r| && r[k].ReqData? ==> r[k].req.depth == Uint32Succ(respDepth)
    decreases |ds|
  {
    if ds != [] {
      CollectedDataShape(ds[..|ds| - 1], respDepth);
    }
  }

  /** Non-nil errors are kept: their number is the number of non-nil entries. */
  lemma {:induction false} CollectedErrorsCount(es: seq<Option<Error>>)
    ensures |CollectedErrors(es)| == CountSome(es)
    decreases |es|
  {
    if es != [] {
      CollectedErrorsCount(es[..|es| - 1]);
    }
  }

  /** The data each parser at index i contributes, and the errors it contributes. */
  function DataCount(ps: seq<Option<ParseResponse>>, httpResp: HttpResponse, respDepth: uint32): nat
    decreases |ps|
  {
    if ps == [] then 0
    else DataCount(ps[..|ps| - 1], httpResp, respDepth)
         + match ps[|ps| - 1] { case None => 0 case Some(f) => CountSome(f(httpResp, respDepth).data) }
  }

  function ErrorCount(ps: seq<Option<ParseResponse>>, httpResp: HttpResponse, respDepth: uint32): nat
    decreases |ps|
  {
    if ps == [] then 0
    else ErrorCount(ps[..|ps| - 1], httpResp, respDepth)
         + match ps[|ps| - 1] { case None => 1 case Some(f) => CountSome(f(httpResp, respDepth).errors) }
  }

  /** Every request among `d` has depth `depth`. */
  predicate ChildDepths(d: seq<Data>, depth: uint32)
  {
    forall k :: 0 <= k < |d| && d[k].ReqData? ==> d[k].req.depth == depth
  }

  lemma ChildDepthsConcat(d0: seq<Data>, d1: seq<Data>, depth: uint32)
    requires ChildDepths(d0, depth) && ChildDepths(d1, depth)
    ensures ChildDepths(d0 + d1, depth)
  {
    forall k | |d0| <= k < |d0| + |d1| && (d0 + d1)[k].ReqData?
      ensures (d0 + d1)[k].req.depth == depth
    {
      assert (d0 + d1)[k] == d1[k - |d0|];
    }
  }

  /** Over the whole loop: every emitted request has depth `respDepth + 1`, and the data
      are as many as the non-nil data of the non-nil parsers. */
  lemma {:induction false} LoopShape(ps: seq<Option<ParseResponse>>, httpResp: HttpResponse, respDepth: uint32)
    ensures ChildDepths(LoopData(ps, httpResp, respDepth), Uint32Succ(respDepth))
    ensures |LoopData(ps, httpResp, respDepth)| == DataCount(ps, httpResp, respDepth)
    decreases |ps|
  {
    if ps != [] {
      var init := ps[..|ps| - 1];
      LoopShape(init, httpResp, respDepth);
      match ps[|ps| - 1]
      case None =>
      case Some(f) =>
        var d1 := CollectedData(f(httpResp, respDepth).data, respDepth);
        CollectedDataShape(f(httpResp, respDepth).data, respDepth);
        assert ChildDepths(d1, Uint32Succ(respDepth));
        ChildDepthsConcat(LoopData(init, httpResp, respDepth), d1, Uint32Succ(respDepth));
    }
  }

  /** Each nil parser adds one error and each non-nil parser as many as its non-nil errors. */
  lemma {:induction false} LoopErrorCount(ps: seq<Option<ParseResponse>>, httpResp: HttpResponse, respDepth: uint32)
    ensures |LoopErrors(ps, httpResp, respDepth)| == ErrorCount(ps, httpResp, respDepth)
    decreases |ps|
  {
    if ps != [] {
      LoopErrorCount(ps[..|ps| - 1], httpResp, respDepth);
      match ps[|ps| - 1]
      case None =>
      case Some(f) =>
        CollectedErrorsCount(f(httpResp, respDepth).errors);
    }
  }

  /** One more parser appends its data to the data list. */
  lemma LoopDataSnoc(ps: seq<Option<ParseResponse>>, p: Option<ParseResponse>, httpResp: HttpResponse, respDepth: uint32)
    ensures LoopData(ps + [p], httpResp, respDepth) == LoopData(ps, httpResp, respDepth) + ParserData(p, httpResp, respDepth)
  {
    assert (ps + [p])[..|ps|] == ps;
  }

  /** Data keep parser order: the data for `ps1 + ps2` are those for `ps1` followed by those for `ps2`. */
  lemma {:induction false} LoopDataConcat(ps1: seq<Option<ParseResponse>>, ps2: seq<Option<ParseResponse>>,
                                          httpResp: HttpResponse, respDepth: uint32)
    ensures LoopData(ps1 + ps2, httpResp, respDepth)
         == LoopData(ps1, httpResp, respDepth) + LoopData(ps2, httpResp, respDepth)
    decreases |ps2|
  {
    if ps2 == [] {
      assert ps1 + ps2 == ps1;
    } else {
      var init2, p := ps2[..|ps2| - 1], ps2[|ps2| - 1];
      SnocSplit(ps1, ps2);
      LoopDataConcat(ps1, init2, httpResp, respDepth);
      LoopDataSnoc(ps1 + init2, p, httpResp, respDepth);
      LoopDataSnoc(init2, p, httpResp, respDepth);
      Regroup(LoopData(ps1 + ps2, httpResp, respDepth), LoopData(ps1 + init2, httpResp, respDepth),
              LoopData(ps1, httpResp, respDepth), LoopData(init2, httpResp, respDepth),
              ParserData(p, httpResp, respDepth));
    }
  }

  /** Re-associating a concatenation that is known in two steps. */
  lemma Regroup<T>(whole: seq<T>, left: seq<T>, x: seq<T>, y: seq<T>, z: seq<T>)
    requires whole == left + z && left == x + y
    ensures whole == x + (y + z)
  {
  }

  /** Splitting off the last element of the second half of a concatenation. */
  lemma SnocSplit<T>(xs: seq<T>, ys: seq<T>)
    requires ys != []
    ensures ys == ys[..|ys| - 1] + [ys[|ys| - 1]]
    ensures xs + ys == (xs + ys[..|ys| - 1]) + [ys[|ys| - 1]]
  {
  }

  /** A nil parser appends exactly one error naming its index, and no data; the loop
      then goes on with the parsers after it. */
  lemma NilParserAddsOneError(ps: seq<Option<ParseResponse>>, httpResp: HttpResponse, respDepth: uint32)
    ensures LoopData(ps + [None], httpResp, respDepth) == LoopData(ps, httpResp, respDepth)
    ensures LoopErrors(ps + [None], httpResp, respDepth)
         == LoopErrors(ps, httpResp, respDepth) + [Error(NilParserMsg(|ps|))]
  {
    assert (ps + [None])[..|ps|] == ps;
    assert LoopData(ps, httpResp, respDepth) + [] == LoopData(ps, httpResp, respDepth);
  }

  /** A nil parser list or a nil http response yields no data and exactly one error. */
  lemma AnalyzeRejectsNil(respParses: Option<seq<Option<ParseResponse>>>, resp: Response)
    requires respParses.None? || resp.httpResp.None?
    ensures AnalyzeResult(respParses, resp).0 == []
    ensures |AnalyzeResult(respParses, resp).1| == 1
  {
  }

  /** Rebuilding a request at the child depth keeps its http request, so it keeps
      its validity. */
  lemma NormalizedKeepsValid(req: Request, respDepth: uint32)
    ensures var r := Normalized(Some(ReqData(req)), respDepth);
      && r[0].ReqData?
      && r[0].req.HttpReq() == req.HttpReq()
      && r[0].req.Depth() == Uint32Succ(respDepth)
      && (r[0].req.Valid() <==> req.Valid())
  {
  }

  /** A valid response passes the nil checks of `analyze`: a parser list is run in full. */
  lemma ValidResponseIsParsed(parses: seq<Option<ParseResponse>>, resp: Response)
    requires resp.Valid()
    ensures AnalyzeResult(Some(parses), resp)
            == (LoopData(parses, resp.HttpResp().value, resp.Depth()),
                LoopErrors(parses, resp.HttpResp().value, resp.Depth()))
  {
  }

  /** Some request among the entries `ds` carries the http request `h`. */
  ghost predicate HasRequestWith(ds: seq<Option<Data>>, h: Option<HttpRequest>)
  {
    exists j :: 0 <= j < |ds| && ds[j].Some? && ds[j].value.ReqData? && ds[j].value.req.httpReq == h
  }

  /** Every request one parser's data yields keeps the http request of a request
      among that parser's entries. */
  lemma {:induction false} CollectedDataOrigins(ds: seq<Option<Data>>, respDepth: uint32, k: nat)
    requires k < |CollectedData(ds, respDepth)| && CollectedData(ds, respDepth)[k].ReqData?
    ensures HasRequestWith(ds, CollectedData(ds, respDepth)[k].req.httpReq)
    decreases |ds|
  {
    var init := ds[..|ds| - 1];
    var r0 := CollectedData(init, respDepth);
    assert CollectedData(ds, respDepth) == r0 + Normalized(ds[|ds| - 1], respDepth);
    if k < |r0| {
      assert CollectedData(ds, respDepth)[k] == r0[k];
      CollectedDataOrigins(init, respDepth, k);
      var j :| 0 <= j < |init| && init[j].Some? && init[j].value.ReqData? && init[j].value.req.httpReq == r0[k].req.httpReq;
      assert ds[j] == init[j];
    } else {
      assert ds[|ds| - 1].Some? && ds[|ds| - 1].value.ReqData?;
    }
  }

  /** The error loop keeps the order of its entries: it distributes over concatenation. */
  lemma {:induction false} CollectedErrorsConcat(a: seq<Option<Error>>, b: seq<Option<Error>>)
    ensures CollectedErrors(a + b) == CollectedErrors(a) + CollectedErrors(b)
    decreases |b|
  {
    if b != [] {
      var b0 := b[..|b| - 1];
      assert (a + b)[..|a + b| - 1] == a + b0;
      assert (a + b)[|a + b| - 1] == b[|b| - 1];
      CollectedErrorsConcat(a, b0);
    } else {
      assert a + b == a;
    }
  }
}
