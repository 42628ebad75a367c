/** The scheduler of scheduler/schduler.go: its code helpers, the primary domain of
    the first request, the routing of analysed data, and the gated `Start`,
    `sendError` and `sendResp` over the channel manager and the stop sign. */
module Scheduler {
  import opened Common
  import opened Base
  import opened GoStrings
  import opened Middleware
  import Analyzer

  // ---------------------------------------------------------------------------
  // Component codes

  const DownloaderCode: string := "downloader"
  const SchedulerCode: string := "scheduler"
  const AnalyzerCode: string := "analyzer"
  const ItemPipelineCode: string := "itempipeline"

  /** Whether `id` is a Unicode scalar value (a code point that is not a surrogate). */
  predicate IsScalar(id: uint32)
  {
    id < 0xD800 || (0xDFFF < id && id <= 0x10FFFF)
  }

  /** Go's `string(id)` on an integer: the one character with that code point, or
      U+FFFD when `id` is not a scalar value. It is not the decimal rendering. */
  function RuneString(id: uint32): (r: string)
    ensures |r| == 1
    ensures IsScalar(id) ==> r[0] as int == id
    ensures !IsScalar(id) ==> r[0] as int == 0xFFFD
    ensures ':' in r <==> id == ':' as int
  {
    if IsScalar(id) then [id as char] else [0xFFFD as char]
  }

  /** `generateCode`: the component code, a colon, and the id as a rune. */
  function GenerateCode(code: string, id: uint32): (r: string)
    ensures |r| == |code| + 2
    ensures r[..|code|] == code && r[|code|] == ':' && r[|code| + 1..] == RuneString(id)
  {
    code + ":" + RuneString(id)
  }

  /** `parseCode`: the colon-separated pieces when there are at least two of them,
      otherwise the placeholder `["NONE", "0"]`. */
  function ParseCode(code: string): (r: seq<string>)
    ensures |r| >= 2
    ensures ':' in code ==> r == Split(code, ':')
    ensures ':' !in code ==> r == ["NONE", "0"]
  {
    var tokens := Split(code, ':');
    if |tokens| > 1 then tokens else ["NONE", "0"]
  }

  /** A generated code parses back into its component code and its rune; the one id
      whose rune is itself a colon (58) yields a third, empty, piece. Either way the
      first piece is the component code. */
  lemma ParseGenerateCode(code: string, id: uint32)
    requires ':' !in code
    ensures ParseCode(GenerateCode(code, id))[0] == code
    ensures id != ':' as int ==> ParseCode(GenerateCode(code, id)) == [code, RuneString(id)]
    ensures id == ':' as int ==> ParseCode(GenerateCode(code, id)) == [code, "", ""]
  {
    var r := RuneString(id);
    var g := GenerateCode(code, id);
    assert ':' in g by { assert g[|code|] == ':'; }
    if id != ':' as int {
      var parts := [code, r];
      assert Join(parts, ':') == g by {
        assert Join(parts[1..], ':') == r;
      }
      SplitJoin(parts, ':');
    } else {
      var parts := [code, "", ""];
      assert Join(parts, ':') == g by {
        assert Join(parts[2..], ':') == "";
        assert Join(parts[1..], ':') == ":";
        assert r == ":";
      }
      SplitJoin(parts, ':');
    }
  }

  /** The error-type switch of `sendError`: the three component codes name their
      error type, every other prefix (the scheduler's own code, "NONE") none. */
  function ErrorTypeOf(codePrefix: string): (t: string)
    ensures codePrefix == DownloaderCode ==> t == DownloadError
    ensures codePrefix == AnalyzerCode ==> t == AnalyzerError
    ensures codePrefix == ItemPipelineCode ==> t == ItemProcessorError
    ensures codePrefix !in {DownloaderCode, AnalyzerCode, ItemPipelineCode} ==> t == ""
  {
    if codePrefix == DownloaderCode then DownloadError
    else if codePrefix == AnalyzerCode then AnalyzerError
    else if codePrefix == ItemPipelineCode then ItemProcessorError
    else ""
  }

  /** The error type `sendError` derives from a code. */
  function CodeErrorType(code: string): (r: string)
    ensures r in {"", DownloadError, AnalyzerError, ItemProcessorError}
    ensures ':' !in code ==> r == ""
  {
    ErrorTypeOf(ParseCode(code)[0])
  }

  /** A code generated for a component is classified as that component's, whatever the id. */
  lemma GeneratedCodeErrorType(code: string, id: uint32)
    requires ':' !in code
    ensures CodeErrorType(GenerateCode(code, id)) == ErrorTypeOf(code)
  {
    ParseGenerateCode(code, id);
  }

  /** The codes the scheduler generates, classified: downloader, analyzer and item
      pipeline codes by their component's error type, whatever the id ... */
  lemma DownloaderCodeErrorType(id: uint32)
    ensures CodeErrorType(GenerateCode(DownloaderCode, id)) == DownloadError
  {
    ComponentErrorType(DownloaderCode, DownloadError, id);
  }

  lemma AnalyzerCodeErrorType(id: uint32)
    ensures CodeErrorType(GenerateCode(AnalyzerCode, id)) == AnalyzerError
  {
    ComponentErrorType(AnalyzerCode, AnalyzerError, id);
  }

  lemma ItemPipelineCodeErrorType(id: uint32)
    ensures CodeErrorType(GenerateCode(ItemPipelineCode, id)) == ItemProcessorError
  {
    ComponentErrorType(ItemPipelineCode, ItemProcessorError, id);
  }

  /** ... and the scheduler's own bare code, which has no colon, with no type. */
  lemma SchedulerCodeErrorType()
    ensures ParseCode(SchedulerCode) == ["NONE", "0"]
    ensures CodeErrorType(SchedulerCode) == ""
  {
    assert ':' !in SchedulerCode;
  }

  lemma ComponentErrorType(code: string, errType: string, id: uint32)
    requires ':' !in code && ErrorTypeOf(code) == errType
    ensures CodeErrorType(GenerateCode(code, id)) == errType
  {
    GeneratedCodeErrorType(code, id);
  }

  /** Every analyzer is handed the same code: `Id` is always 0, so the rune is U+0000. */
  lemma AnalyzerCodesCoincide(a: Analyzer.Analyzer, b: Analyzer.Analyzer)
    ensures GenerateCode(AnalyzerCode, a.Id()) == GenerateCode(AnalyzerCode, b.Id())
    ensures GenerateCode(AnalyzerCode, a.Id()) == AnalyzerCode + ":" + [0 as char]
  {
  }

  // ---------------------------------------------------------------------------
  // Primary domain

  const NotADomainMsg: string := "not a domain!"

  /** The message of the runtime panic when `tokens[l-3]` is evaluated with `l == 2`. */
  const IndexMinusOneMsg: string := "runtime error: index out of range [-1]"

  /** `getPrimaryDomain`: the last two dot-separated labels. A host with fewer than two
      labels is an error. When the last label is "cn" the code first evaluates
      `tokens[l-3]`, which panics for exactly two labels; with three or more that
      value is overwritten, so "cn" hosts get the last two labels as well. */
  function GetPrimaryDomain(host: string): (r: Result<string>)
    ensures r.Err? <==> '.' !in host
    ensures r.Err? ==> r.error == Error(NotADomainMsg)
    ensures r.Panic? <==> (var t := Split(host, '.'); |t| == 2 && t[1] == "cn")
    ensures r.Panic? ==> r.reason == IndexMinusOneMsg
    ensures r.Ok? ==> var t := Split(host, '.'); |t| >= 2 && r.value == t[|t| - 2] + "." + t[|t| - 1]
  {
    var tokens := Split(host, '.');
    var l := |tokens|;
    if l < 2 then Err(Error(NotADomainMsg))
    else if tokens[l - 1] == "cn" && l - 3 < 0 then Panic(IndexMinusOneMsg)
    else Ok(tokens[l - 2] + "." + tokens[l - 1])
  }

  /** For a host made of dot-free labels, the primary domain is its last two labels,
      except that a two-label ".cn" host panics. */
  lemma PrimaryDomainOfLabels(labels: seq<string>)
    requires |labels| >= 2
    requires forall i :: 0 <= i < |labels| ==> '.' !in labels[i]
    ensures var l := |labels|;
      GetPrimaryDomain(Join(labels, '.'))
        == if l == 2 && labels[1] == "cn" then Panic(IndexMinusOneMsg)
           else Ok(labels[l - 2] + "." + labels[l - 1])
  {
    SplitJoin(labels, '.');
    PrimaryDomainOfSplit(Join(labels, '.'), labels);
  }

  /** The primary domain depends on the host only through its labels. */
  lemma PrimaryDomainOfSplit(host: string, labels: seq<string>)
    requires Split(host, '.') == labels && |labels| >= 2
    ensures var l := |labels|;
      GetPrimaryDomain(host)
        == if l == 2 && labels[1] == "cn" then Panic(IndexMinusOneMsg)
           else Ok(labels[l - 2] + "." + labels[l - 1])
  {
  }

  /** A primary domain is its own primary domain, unless its last label is "cn". */
  lemma PrimaryDomainIdempotent(host: string)
    requires GetPrimaryDomain(host).Ok?
    ensures var t := Split(host, '.');
      t[|t| - 1] != "cn" ==> GetPrimaryDomain(GetPrimaryDomain(host).value) == GetPrimaryDomain(host)
  {
    var t := Split(host, '.');
    var l := |t|;
    var pd := t[l - 2] + "." + t[l - 1];
    assert pd == Join([t[l - 2], t[l - 1]], '.') by {
      assert Join([t[l - 2], t[l - 1]][1..], '.') == t[l - 1];
    }
    PrimaryDomainOfLabels([t[l - 2], t[l - 1]]);
  }

  /** A bare name is not a domain, and a two-label ".cn" host panics. */
  lemma PrimaryDomainRejects()
    ensures GetPrimaryDomain("localhost") == Err(Error(NotADomainMsg))
    ensures GetPrimaryDomain("example.cn").Panic?
  {
    assert '.' !in "localhost";
    var labels := ["example", "cn"];
    assert Join(labels, '.') == "example.cn" by {
      assert Join(labels[1..], '.') == "cn";
    }
    PrimaryDomainOfLabels(labels);
  }

  // ---------------------------------------------------------------------------
  // Routing of analysed data

  /** Where `analyze` sends the data of one response: requests to the request cache,
      items to the item pipeline, and everything else, as an unsupported type, to
      `sendError` (the tag stands for the value it formats). */
  datatype Routing = Routing(requests: seq<Request>, items: seq<Item>, unsupported: seq<nat>)

  /** The routing of a data list, datum by datum in list order. */
  function Route(dataList: seq<Data>): (r: Routing)
    ensures |r.requests| + |r.items| + |r.unsupported| == |dataList|
    decreases |dataList|
  {
    if dataList == [] then Routing([], [], [])
    else
      var r := Route(dataList[..|dataList| - 1]);
      match dataList[|dataList| - 1]
      case ReqData(q) => r.(requests := r.requests + [q])
      case ItemData(it) => r.(items := r.items + [it])
      case OtherData(tag) => r.(unsupported := r.unsupported + [tag])
  }

  lemma RouteSnoc(dataList: seq<Data>, d: Data)
    ensures Route(dataList + [d]) == match d
      case ReqData(q) => Route(dataList).(requests := Route(dataList).requests + [q])
      case ItemData(it) => Route(dataList).(items := Route(dataList).items + [it])
      case OtherData(tag) => Route(dataList).(unsupported := Route(dataList).unsupported + [tag])
  {
    assert (dataList + [d])[..|dataList|] == dataList;
  }

  /** Nothing is lost or invented: a request, item or tag is routed exactly when it
      occurs in the data list, each to its own sink. */
  lemma {:induction false} RouteMembers(dataList: seq<Data>)
    ensures forall q :: q in Route(dataList).requests <==> ReqData(q) in dataList
    ensures forall it :: it in Route(dataList).items <==> ItemData(it) in dataList
    ensures forall tag :: tag in Route(dataList).unsupported <==> OtherData(tag) in dataList
    decreases |dataList|
  {
    if dataList != [] {
      var init, d := dataList[..|dataList| - 1], dataList[|dataList| - 1];
      assert dataList == init + [d];
      RouteMembers(init);
      RouteSnoc(init, d);
    }
  }

  /** Routing keeps list order in every sink: the data of two lists in a row are
      routed as those of the first, then those of the second. */
  lemma {:induction false} RouteConcat(xs: seq<Data>, ys: seq<Data>)
    ensures Route(xs + ys).requests == Route(xs).requests + Route(ys).requests
    ensures Route(xs + ys).items == Route(xs).items + Route(ys).items
    ensures Route(xs + ys).unsupported == Route(xs).unsupported + Route(ys).unsupported
    decreases |ys|
  {
    if ys == [] {
      assert xs + ys == xs;
    } else {
      var init, d := ys[..|ys| - 1], ys[|ys| - 1];
      assert ys == init + [d];
      assert xs + ys == (xs + init) + [d];
      RouteConcat(xs, init);
      RouteSnoc(xs + init, d);
      RouteSnoc(init, d);
    }
  }

  /** Every request `analyze` routes to the cache is one level deeper than the
      response it was parsed from (modulo 2^32). */
  lemma RoutedRequestsAreChildren(respParses: Option<seq<Option<Analyzer.ParseResponse>>>, resp: Response)
    ensures forall q :: q in Route(Analyzer.AnalyzeResult(respParses, resp).0).requests ==>
                          q.depth == Uint32Succ(resp.depth)
  {
    var dataList := Analyzer.AnalyzeResult(respParses, resp).0;
    RouteMembers(dataList);
    if respParses.Some? && resp.httpResp.Some? {
      Analyzer.LoopShape(respParses.value, resp.httpResp.value, resp.depth);
      forall q | q in Route(dataList).requests
        ensures q.depth == Uint32Succ(resp.depth)
      {
        var k :| 0 <= k < |dataList| && dataList[k] == ReqData(q);
      }
    }
  }

  /** The loop of `analyze` over the data list, collecting what it hands to each sink. */
  method RouteAll(dataList: seq<Data>) returns (r: Routing)
    ensures r == Route(dataList)
  {
    r := Routing([], [], []);
    for i := 0 to |dataList|
      invariant r == Route(dataList[..i])
    {
      assert dataList[..i + 1] == dataList[..i] + [dataList[i]];
      RouteSnoc(dataList[..i], dataList[i]);
      match dataList[i]
      case ReqData(q) => r := r.(requests := r.requests + [q]);
      case ItemData(it) => r := r.(items := r.items + [it]);
      case OtherData(tag) => r := r.(unsupported := r.unsupported + [tag]);
    }
    assert dataList[..|dataList|] == dataList;
  }

  // ---------------------------------------------------------------------------
  // The scheduler

  const StartedMsg: string := "The scheduler is started!"
  const ChannelLenZeroMsg: string := "The channel max length (cap) can not be 0!\n"
  const PoolSizeZeroMsg: string := "The pool size can not be 0!\n"
  const NilGeneratorMsg: string := "The http generate list is invalid!"
  const NilProcessorListMsg: string := "The item processor list is invalid!"
  const NilFirstReqMsg: string := "The firstHttpReq is invalid!"

  function DownloaderPoolMsg(e: Error): string
  {
    "Occur error when gen page downloader pool :" + e.text + "\n"
  }

  function AnalyzerPoolMsg(e: Error): string
  {
    "Occur error when gen analyzer pool :" + e.text + "\n"
  }

  function NilProcessorMsg(i: nat): string
  {
    "The item " + NatToString(i) + " processor list is invalid!"
  }

  /** What the deferred `recover` of `Start` formats from a panic before handing it
      to `logrus.Fatal`. */
  function RecoveredMsg(reason: string): string
  {
    "Schduler Error is :" + reason + "\n"
  }

  /** The index of the first nil item processor (`false`), if any. */
  function FirstNil(processors: seq<bool>): (r: Option<nat>)
    ensures r.None? <==> forall j :: 0 <= j < |processors| ==> processors[j]
    ensures r.Some? ==> r.value < |processors| && !processors[r.value]
                        && forall j :: 0 <= j < r.value ==> processors[j]
    decreases |processors|
  {
    if processors == [] then None
    else if !processors[0] then Some(0)
    else match FirstNil(processors[1..])
         case None => None
         case Some(i) => Some(i + 1)
  }

  /** The loop of `Start` over the item processors, stopping at the first nil one. */
  method CheckProcessors(processors: seq<bool>) returns (nilAt: Option<nat>)
    ensures nilAt == FirstNil(processors)
  {
    for i := 0 to |processors|
      invariant forall j :: 0 <= j < i ==> processors[j]
    {
      if !processors[i] {
        return Some(i);
      }
    }
    return None;
  }

  /** The scalar fields of `myScheduler`. The pools and the item pipeline are opaque
      in this model; only whether each has been installed is kept. `reqCache` is the
      request cache the first request goes to. */
  datatype Fields = Fields(poolSize: uint32, channelLen: nat, crawlDepth: uint32,
                           primaryDomain: string, hasDlpool: bool, hasAnalyzerPool: bool,
                           hasItemPipeline: bool, running: uint32, urlMap: map<string, bool>,
                           reqCache: seq<Request>)

  /** Where lines 78-130 of `Start` end: the error or success returned, the fields
      left behind, and whether a channel manager was built and the stop sign armed. */
  datatype Plan = Plan(result: Result<()>, fields: Fields, builtChanman: bool, armedStopSign: bool)

  /** Lines 85-99 of `Start`: refuse a nil client generator, then install the
      downloader pool and the analyzer pool unless building one fails. */
  function BuildPlan(s: Fields, hasHttpClientGenerator: bool, downloaderPool: Result<()>,
                     analyzerPool: Result<()>): (p: Plan)
    ensures p.result.Ok? <==> hasHttpClientGenerator && downloaderPool.Ok? && analyzerPool.Ok?
    ensures p.fields.hasDlpool == (s.hasDlpool || (hasHttpClientGenerator && downloaderPool.Ok?))
    ensures p.fields.hasAnalyzerPool == (s.hasAnalyzerPool || p.result.Ok?)
    ensures p.fields.(hasDlpool := s.hasDlpool, hasAnalyzerPool := s.hasAnalyzerPool) == s
    ensures !p.builtChanman && !p.armedStopSign
    ensures !hasHttpClientGenerator ==> p.result == Err(Error(NilGeneratorMsg))
    ensures hasHttpClientGenerator && downloaderPool.Err? ==>
              p.result == Err(Error(DownloaderPoolMsg(downloaderPool.error)))
    ensures hasHttpClientGenerator && downloaderPool.Panic? ==>
              p.result == Panic(RecoveredMsg(downloaderPool.reason))
    ensures hasHttpClientGenerator && downloaderPool.Ok? && analyzerPool.Err? ==>
              p.result == Err(Error(AnalyzerPoolMsg(analyzerPool.error)))
    ensures hasHttpClientGenerator && downloaderPool.Ok? && analyzerPool.Panic? ==>
              p.result == Panic(RecoveredMsg(analyzerPool.reason))
  {
    if !hasHttpClientGenerator then Plan(Err(Error(NilGeneratorMsg)), s, false, false)
    else if downloaderPool.Err? then Plan(Err(Error(DownloaderPoolMsg(downloaderPool.error))), s, false, false)
    else if downloaderPool.Panic? then Plan(Panic(RecoveredMsg(downloaderPool.reason)), s, false, false)
    else
      var s2 := s.(hasDlpool := true);
      if analyzerPool.Err? then Plan(Err(Error(AnalyzerPoolMsg(analyzerPool.error))), s2, false, false)
      else if analyzerPool.Panic? then Plan(Panic(RecoveredMsg(analyzerPool.reason)), s2, false, false)
      else Plan(Ok(()), s2.(hasAnalyzerPool := true), false, false)
  }

  /** Lines 78-99 of `Start`, from fields `s`: record the channel length, refuse a
      zero pool size, record the pool size and crawl depth, build the channel manager,
      then the pools. `Ok` means the later stages run. */
  function PoolsPlan(s: Fields, channelLen: nat, poolSize: uint32, crawlDepth: uint32,
                     hasHttpClientGenerator: bool, downloaderPool: Result<()>,
                     analyzerPool: Result<()>): (p: Plan)
    ensures p.result.Ok? <==> poolSize != 0 && hasHttpClientGenerator && downloaderPool.Ok? && analyzerPool.Ok?
    ensures p.builtChanman <==> poolSize != 0
    ensures !p.armedStopSign
    ensures p.fields.channelLen == channelLen
    ensures poolSize != 0 ==> p.fields.poolSize == poolSize && p.fields.crawlDepth == crawlDepth
    ensures p.fields.reqCache == s.reqCache && p.fields.primaryDomain == s.primaryDomain
    ensures p.fields.running == s.running && p.fields.urlMap == s.urlMap
    ensures poolSize == 0 ==> p.result == Err(Error(PoolSizeZeroMsg)) && p.fields == s.(channelLen := channelLen)
    ensures poolSize != 0 ==> p.result == BuildPlan(s, hasHttpClientGenerator, downloaderPool, analyzerPool).result
  {
    var s0 := s.(channelLen := channelLen);
    if poolSize == 0 then Plan(Err(Error(PoolSizeZeroMsg)), s0, false, false)
    else BuildPlan(s0.(poolSize := poolSize, crawlDepth := crawlDepth),
                   hasHttpClientGenerator, downloaderPool, analyzerPool).(builtChanman := true)
  }

  /** Lines 121-130 of `Start`: refuse a nil first request, then queue it at depth 0
      once its host has a primary domain. */
  function QueuePlan(s: Fields, firstHttpReq: Option<HttpRequest>): (p: Plan)
    ensures p.result.Ok? <==> firstHttpReq.Some? && GetPrimaryDomain(firstHttpReq.value.host).Ok?
    ensures !p.result.Ok? ==> p.fields == s
    ensures p.result.Ok? ==> p.fields.reqCache == s.reqCache + [Request(firstHttpReq, 0)]
                             && p.fields.primaryDomain == GetPrimaryDomain(firstHttpReq.value.host).value
    ensures !p.builtChanman && !p.armedStopSign
    ensures firstHttpReq.None? ==> p.result == Err(Error(NilFirstReqMsg))
    ensures firstHttpReq.Some? && GetPrimaryDomain(firstHttpReq.value.host).Err? ==>
              p.result == Err(GetPrimaryDomain(firstHttpReq.value.host).error)
    ensures firstHttpReq.Some? && GetPrimaryDomain(firstHttpReq.value.host).Panic? ==>
              p.result == Panic(RecoveredMsg(GetPrimaryDomain(firstHttpReq.value.host).reason))
  {
    if firstHttpReq.None? then Plan(Err(Error(NilFirstReqMsg)), s, false, false)
    else match GetPrimaryDomain(firstHttpReq.value.host)
      case Err(e) => Plan(Err(e), s, false, false)
      case Panic(reason) => Plan(Panic(RecoveredMsg(reason)), s, false, false)
      case Ok(pd) =>
        Plan(Ok(()), s.(primaryDomain := pd, reqCache := s.reqCache + [NewRequest(firstHttpReq, 0)]),
             false, false)
  }

  /** Lines 100-130 of `Start`: check the item processors, install the pipeline, arm
      the stop sign, clear the URL map, and queue the first request. */
  function PipelinePlan(s: Fields, itemProcessors: Option<seq<bool>>, firstHttpReq: Option<HttpRequest>): (p: Plan)
    ensures p.armedStopSign <==> itemProcessors.Some? && FirstNil(itemProcessors.value).None?
    ensures p.result.Ok? <==> p.armedStopSign && QueuePlan(s, firstHttpReq).result.Ok?
    ensures !p.armedStopSign ==> p.fields == s
    ensures p.armedStopSign ==> p.fields.hasItemPipeline && p.fields.urlMap == map[]
    ensures !p.builtChanman
    ensures itemProcessors.None? ==> p.result == Err(Error(NilProcessorListMsg))
    ensures itemProcessors.Some? && FirstNil(itemProcessors.value).Some? ==>
              p.result == Err(Error(NilProcessorMsg(FirstNil(itemProcessors.value).value)))
    ensures p.armedStopSign ==> p.result == QueuePlan(s, firstHttpReq).result
  {
    if itemProcessors.None? then Plan(Err(Error(NilProcessorListMsg)), s, false, false)
    else if FirstNil(itemProcessors.value).Some? then
      Plan(Err(Error(NilProcessorMsg(FirstNil(itemProcessors.value).value))), s, false, false)
    else QueuePlan(s.(hasItemPipeline := true, urlMap := map[]), firstHttpReq).(armedStopSign := true)
  }

  /** Lines 78-130 of `Start`: the pool stage, then, if it succeeded, the pipeline stage. */
  function ConfigurePlan(s: Fields, channelLen: nat, poolSize: uint32, crawlDepth: uint32,
                         hasHttpClientGenerator: bool, downloaderPool: Result<()>,
                         analyzerPool: Result<()>, itemProcessors: Option<seq<bool>>,
                         firstHttpReq: Option<HttpRequest>): (p: Plan)
    ensures p.builtChanman <==> poolSize != 0
    ensures p.fields.channelLen == channelLen && p.fields.running == s.running
    ensures p.armedStopSign ==> PoolsPlan(s, channelLen, poolSize, crawlDepth, hasHttpClientGenerator,
                                          downloaderPool, analyzerPool).result.Ok?
    ensures var a := PoolsPlan(s, channelLen, poolSize, crawlDepth, hasHttpClientGenerator,
                               downloaderPool, analyzerPool);
            p.result == if a.result.Ok? then PipelinePlan(a.fields, itemProcessors, firstHttpReq).result
                        else a.result
  {
    var a := PoolsPlan(s, channelLen, poolSize, crawlDepth, hasHttpClientGenerator, downloaderPool, analyzerPool);
    if !a.result.Ok? then a
    else PipelinePlan(a.fields, itemProcessors, firstHttpReq).(builtChanman := true)
  }

  /** The checks of lines 78-130 of `Start` in the order they run, each failing one
      with the error it returns: the first failing check decides the result. */
  lemma ConfigureErrorOrder(s: Fields, channelLen: nat, poolSize: uint32, crawlDepth: uint32,
                            hasHttpClientGenerator: bool, downloaderPool: Result<()>,
                            analyzerPool: Result<()>, itemProcessors: Option<seq<bool>>,
                            firstHttpReq: Option<HttpRequest>)
    ensures var r := ConfigurePlan(s, channelLen, poolSize, crawlDepth, hasHttpClientGenerator, downloaderPool,
                                   analyzerPool, itemProcessors, firstHttpReq).result;
            if poolSize == 0 then r == Err(Error(PoolSizeZeroMsg))
            else if !hasHttpClientGenerator then r == Err(Error(NilGeneratorMsg))
            else if downloaderPool.Err? then r == Err(Error(DownloaderPoolMsg(downloaderPool.error)))
            else if downloaderPool.Panic? then r == Panic(RecoveredMsg(downloaderPool.reason))
            else if analyzerPool.Err? then r == Err(Error(AnalyzerPoolMsg(analyzerPool.error)))
            else if analyzerPool.Panic? then r == Panic(RecoveredMsg(analyzerPool.reason))
            else if itemProcessors.None? then r == Err(Error(NilProcessorListMsg))
            else if FirstNil(itemProcessors.value).Some? then
              r == Err(Error(NilProcessorMsg(FirstNil(itemProcessors.value).value)))
            else if firstHttpReq.None? then r == Err(Error(NilFirstReqMsg))
            else if '.' !in firstHttpReq.value.host then r == Err(Error(NotADomainMsg))
            else if GetPrimaryDomain(firstHttpReq.value.host).Panic? then r == Panic(RecoveredMsg(IndexMinusOneMsg))
            else r == Ok(())
  {
  }

  /** A channel manager as `NewChannelManager` builds it: initialized, of length
      `channelLen` (the default of 50 when that is 0), with all four channels empty. */
  ghost predicate ManagerReady(m: ChannelManager?, channelLen: nat)
    reads m, if m != null then m.Footprint() else {}
  {
    m != null && m.Valid() && m.status == Initialized
    && m.channelLen == (if channelLen == 0 then DefaultChanLen else channelLen)
    && m.reqCh.buf == [] && m.respCh.buf == [] && m.itemCh.buf == [] && m.errorCh.buf == []
  }

  const ZeroFields: Fields := Fields(0, 0, 0, "", false, false, false, 0, map[], [])

  class Scheduler {
    var poolSize: uint32
    var channelLen: nat
    var crawlDepth: uint32
    var primaryDomain: string
    var chanman: ChannelManager?
    var stopSign: StopSign?
    var hasDlpool: bool
    var hasAnalyzerPool: bool
    var hasItemPipeline: bool
    var running: uint32
    var urlMap: map<string, bool>
    var reqCache: seq<Request>

    function State(): Fields
      reads this
    {
      Fields(poolSize, channelLen, crawlDepth, primaryDomain, hasDlpool, hasAnalyzerPool,
             hasItemPipeline, running, urlMap, reqCache)
    }

    /** `NewScheduler`: the zero value. */
    constructor ()
      ensures State() == ZeroFields && chanman == null && stopSign == null
    {
      poolSize, channelLen, crawlDepth, primaryDomain := 0, 0, 0, "";
      chanman, stopSign := null, null;
      hasDlpool, hasAnalyzerPool, hasItemPipeline := false, false, false;
      running, urlMap, reqCache := 0, map[], [];
    }

    /** The stop sign is the same object, in the same state. */
    twostate predicate StopSignKept()
      reads this, stopSign
    {
      stopSign == old(stopSign)
      && (stopSign != null ==> stopSign.signed == old(stopSign.signed) && stopSign.dealt == old(stopSign.dealt))
    }

    /** The outcome `Plan` promises: the fields, a fresh, initialized, empty channel manager
        when one was built (the old one otherwise), and an armed stop sign, the old
        one reset or a fresh one, when that stage was reached. */
    twostate predicate Realizes(p: Plan)
      reads this, stopSign, chanman, if chanman != null then chanman.Footprint() else {}
    {
      && State() == p.fields
      && (if p.builtChanman then fresh(chanman) && ManagerReady(chanman, channelLen) else chanman == old(chanman))
      && (if p.armedStopSign then
            stopSign != null && !stopSign.signed && stopSign.dealt == []
            && (if old(stopSign) == null then fresh(stopSign) else stopSign == old(stopSign))
          else StopSignKept())
    }

    /** Lines 78-84 of `Start`: record the channel length, refuse a zero pool size,
        record the pool size and crawl depth, and build the channel manager. */
    method RecordArgs(channelLen: nat, poolSize: uint32, crawlDepth: uint32) returns (ok: bool)
      modifies this
      ensures ok <==> poolSize != 0
      ensures !ok ==> State() == old(State()).(channelLen := channelLen) && chanman == old(chanman)
      ensures ok ==> State() == old(State()).(channelLen := channelLen, poolSize := poolSize, crawlDepth := crawlDepth)
      ensures stopSign == old(stopSign)
      ensures ok ==> fresh(chanman) && ManagerReady(chanman, channelLen)
    {
      this.channelLen := channelLen;
      if poolSize == 0 {
        return false;
      }
      this.poolSize, this.crawlDepth := poolSize, crawlDepth;
      chanman := NewChannelManager(this.channelLen);
      return true;
    }

    /** Lines 85-99 of `Start`. */
    method BuildPools(hasHttpClientGenerator: bool, downloaderPool: Result<()>, analyzerPool: Result<()>)
      returns (r: Result<()>)
      modifies this
      ensures chanman == old(chanman) && stopSign == old(stopSign)
      ensures old(ManagerReady(chanman, channelLen)) ==> ManagerReady(chanman, channelLen)
      ensures var p := BuildPlan(old(State()), hasHttpClientGenerator, downloaderPool, analyzerPool);
              r == p.result && State() == p.fields
    {
      if !hasHttpClientGenerator {
        return Err(Error(NilGeneratorMsg));
      }
      if !downloaderPool.Ok? {
        return if downloaderPool.Err? then Err(Error(DownloaderPoolMsg(downloaderPool.error)))
               else Panic(RecoveredMsg(downloaderPool.reason));
      }
      hasDlpool := true;
      if !analyzerPool.Ok? {
        return if analyzerPool.Err? then Err(Error(AnalyzerPoolMsg(analyzerPool.error)))
               else Panic(RecoveredMsg(analyzerPool.reason));
      }
      hasAnalyzerPool := true;
      return Ok(());
    }

    /** Lines 78-99 of `Start`. */
    method InstallPools(channelLen: nat, poolSize: uint32, crawlDepth: uint32,
                        hasHttpClientGenerator: bool, downloaderPool: Result<()>,
                        analyzerPool: Result<()>) returns (r: Result<()>)
      modifies this
      ensures var p := PoolsPlan(old(State()), channelLen, poolSize, crawlDepth, hasHttpClientGenerator,
                                 downloaderPool, analyzerPool);
              r == p.result && Realizes(p)
    {
      var ok := RecordArgs(channelLen, poolSize, crawlDepth);
      if !ok {
        return Err(Error(PoolSizeZeroMsg));
      }
      r := BuildPools(hasHttpClientGenerator, downloaderPool, analyzerPool);
    }

    /** Lines 121-130 of `Start`. */
    method QueueFirstRequest(firstHttpReq: Option<HttpRequest>) returns (r: Result<()>)
      modifies this
      ensures chanman == old(chanman) && stopSign == old(stopSign)
      ensures old(ManagerReady(chanman, channelLen)) ==> ManagerReady(chanman, channelLen)
      ensures var p := QueuePlan(old(State()), firstHttpReq);
              r == p.result && State() == p.fields
    {
      if firstHttpReq.None? {
        return Err(Error(NilFirstReqMsg));
      }
      match GetPrimaryDomain(firstHttpReq.value.host) {
        case Err(e) => return Err(e);
        case Panic(p) => return Panic(RecoveredMsg(p));
        case Ok(pd) =>
          primaryDomain := pd;
          reqCache := reqCache + [NewRequest(firstHttpReq, 0)];
          return Ok(());
      }
    }

    /** Lines 108-114 of `Start`: install the item pipeline, arm the stop sign (a
        fresh one the first time, the old one reset after) and clear the URL map. */
    method InstallItemPipeline()
      modifies this, stopSign
      ensures State() == old(State()).(hasItemPipeline := true, urlMap := map[]) && chanman == old(chanman)
      ensures old(ManagerReady(chanman, channelLen)) ==> ManagerReady(chanman, channelLen)
      ensures stopSign != null && !stopSign.signed && stopSign.dealt == []
      ensures if old(stopSign) == null then fresh(stopSign) else stopSign == old(stopSign)
    {
      hasItemPipeline := true;
      if stopSign == null {
        stopSign := new StopSign();
      } else {
        stopSign.Reset();
      }
      urlMap := map[];
    }

    /** Lines 100-130 of `Start`. */
    method InstallPipeline(itemProcessors: Option<seq<bool>>, firstHttpReq: Option<HttpRequest>)
      returns (r: Result<()>)
      modifies this, stopSign
      ensures old(ManagerReady(chanman, channelLen)) ==> ManagerReady(chanman, channelLen)
      ensures var p := PipelinePlan(old(State()), itemProcessors, firstHttpReq);
              r == p.result && Realizes(p)
    {
      if itemProcessors.None? {
        return Err(Error(NilProcessorListMsg));
      }
      var nilAt := CheckProcessors(itemProcessors.value);
      if nilAt.Some? {
        return Err(Error(NilProcessorMsg(nilAt.value)));
      }
      InstallItemPipeline();
      ghost var mid := State();
      r := QueueFirstRequest(firstHttpReq);
      assert PipelinePlan(old(State()), itemProcessors, firstHttpReq)
          == QueuePlan(mid, firstHttpReq).(armedStopSign := true);
    }

    /** Lines 78-130 of `Start`: the pools, then the pipeline. */
    method Configure(channelLen: nat, poolSize: uint32, crawlDepth: uint32,
                     hasHttpClientGenerator: bool, downloaderPool: Result<()>,
                     analyzerPool: Result<()>, itemProcessors: Option<seq<bool>>,
                     firstHttpReq: Option<HttpRequest>) returns (r: Result<()>)
      modifies this, stopSign
      ensures var p := ConfigurePlan(old(State()), channelLen, poolSize, crawlDepth, hasHttpClientGenerator,
                                     downloaderPool, analyzerPool, itemProcessors, firstHttpReq);
              r == p.result && Realizes(p)
    {
      r := InstallPools(channelLen, poolSize, crawlDepth, hasHttpClientGenerator, downloaderPool, analyzerPool);
      if !r.Ok? {
        return;
      }
      r := InstallPipeline(itemProcessors, firstHttpReq);
    }

    /** Line 74 of `Start`: the running flag is set before any argument is checked. */
    method MarkRunning()
      modifies this
      ensures State() == old(State()).(running := 1)
      ensures chanman == old(chanman) && stopSign == old(stopSign)
    {
      running := 1;
    }

    /** `Start`, as written: refuses a running scheduler; otherwise sets the running
        flag first, then checks the channel length FIELD (still 0 on a scheduler that
        has never been configured) instead of the argument, and configures. */
    method Start(channelLen: nat, poolSize: uint32, crawlDepth: uint32,
                 hasHttpClientGenerator: bool, downloaderPool: Result<()>,
                 analyzerPool: Result<()>, itemProcessors: Option<seq<bool>>,
                 firstHttpReq: Option<HttpRequest>) returns (r: Result<()>)
      modifies this, stopSign
      ensures old(running) == 1 ==>
                r == Err(Error(StartedMsg)) && State() == old(State())
                && chanman == old(chanman) && StopSignKept()
      ensures old(running) != 1 && old(this.channelLen) == 0 ==>
                r == Err(Error(ChannelLenZeroMsg)) && State() == old(State()).(running := 1)
                && chanman == old(chanman) && StopSignKept()
      ensures old(running) != 1 && old(this.channelLen) != 0 ==>
                var p := ConfigurePlan(old(State()).(running := 1), channelLen, poolSize, crawlDepth, hasHttpClientGenerator,
                                       downloaderPool, analyzerPool, itemProcessors, firstHttpReq);
                r == p.result && Realizes(p)
    {
      if running == 1 {
        return Err(Error(StartedMsg));
      }
      MarkRunning();
      if this.channelLen == 0 {
        return Err(Error(ChannelLenZeroMsg));
      }
      r := Configure(channelLen, poolSize, crawlDepth, hasHttpClientGenerator,
                     downloaderPool, analyzerPool, itemProcessors, firstHttpReq);
    }
  
    /** `Start` with the length check on the argument, as evidently intended: a zero
        channel length is refused and any other one accepted, whatever the field holds. */
    method StartChecked(channelLen: nat, poolSize: uint32, crawlDepth: uint32,
                        hasHttpClientGenerator: bool, downloaderPool: Result<()>,
                        analyzerPool: Result<()>, itemProcessors: Option<seq<bool>>,
                        firstHttpReq: Option<HttpRequest>) returns (r: Result<()>)
      modifies this, stopSign
      ensures old(running) == 1 ==>
                r == Err(Error(StartedMsg)) && State() == old(State())
                && chanman == old(chanman) && StopSignKept()
      ensures old(running) != 1 && channelLen == 0 ==>
                r == Err(Error(ChannelLenZeroMsg)) && State() == old(State()).(running := 1)
                && chanman == old(chanman) && StopSignKept()
      ensures old(running) != 1 && channelLen != 0 ==>
                var p := ConfigurePlan(old(State()).(running := 1), channelLen, poolSize, crawlDepth, hasHttpClientGenerator,
                                       downloaderPool, analyzerPool, itemProcessors, firstHttpReq);
                r == p.result && Realizes(p)
    {
      if running == 1 {
        return Err(Error(StartedMsg));
      }
      MarkRunning();
      if channelLen == 0 {
        return Err(Error(ChannelLenZeroMsg));
      }
      r := Configure(channelLen, poolSize, crawlDepth, hasHttpClientGenerator,
                     downloaderPool, analyzerPool, itemProcessors, firstHttpReq);
    }

    /** `sendResp`: while the stop sign is raised the response is accounted to `code`
        and dropped; otherwise it goes on the response channel. A manager that is not
        initialized makes `getRespChan` panic with its status error. A full channel
        would block, so the model requires room. */
    method SendResp(resp: Response, code: string) returns (r: Result<bool>)
      requires stopSign != null && chanman != null && chanman.Valid()
      requires !stopSign.signed && chanman.status == Initialized ==>
                 |chanman.respCh.buf| < chanman.respCh.cap
      modifies stopSign, chanman.respCh
      ensures chanman.Valid() && stopSign.signed == old(stopSign.signed)
      ensures old(stopSign.signed) ==> r == Ok(false) && stopSign.dealt == old(stopSign.dealt) + [code]
      ensures !old(stopSign.signed) ==> stopSign.dealt == old(stopSign.dealt)
      ensures !old(stopSign.signed) && chanman.status != Initialized ==>
                r == Panic(chanman.CheckStatus().value.text)
      ensures !old(stopSign.signed) && chanman.status == Initialized ==>
                r == Ok(true) && chanman.respCh.buf == old(chanman.respCh.buf) + [resp]
      ensures (old(stopSign.signed) || chanman.status != Initialized) && chanman.respCh != null ==>
                chanman.respCh.buf == old(chanman.respCh.buf)
    {
      if stopSign.Signed() {
        stopSign.Deal(code);
        return Ok(false);
      }
      var ch := chanman.RespChan();
      if !ch.Ok? {
        return Panic(ch.error.text);
      }
      ch.value.Send(resp);
      return Ok(true);
    }

    /** `sendError`, as written: the guard is inverted, so a real error is dropped at
        once and only a nil one goes on, to panic on `err.Error()`. Nothing is sent and
        the stop sign is not consulted. */
    method SendError(err: Option<Error>, code: string) returns (r: Result<bool>)
      ensures err.Some? ==> r == Ok(false)
      ensures err.None? ==> r == Panic(NilDereferenceMsg)
    {
      if err.Some? {
        return Ok(false);
      }
      return Panic(NilDereferenceMsg);
    }

    /** `sendError` with the guard the rest of its body evidently expects (`err == nil`
        returns false): a real error becomes a crawler error typed by the component in
        `code`; it is accounted and dropped while the stop sign is raised, and put on
        the error channel otherwise. The asynchronous send is modelled as an immediate
        one, so the model requires room. */
    method SendErrorChecked(err: Option<Error>, code: string) returns (r: Result<bool>)
      requires stopSign != null && chanman != null && chanman.Valid()
      requires err.Some? && !stopSign.signed && chanman.status == Initialized ==>
                 |chanman.errorCh.buf| < chanman.errorCh.cap
      modifies stopSign, chanman.errorCh
      ensures chanman.Valid() && stopSign.signed == old(stopSign.signed)
      ensures err.None? ==> r == Ok(false)
      ensures err.Some? && old(stopSign.signed) ==> r == Ok(false)
      ensures stopSign.dealt == if err.Some? && old(stopSign.signed) then old(stopSign.dealt) + [code]
                                else old(stopSign.dealt)
      ensures err.Some? && !old(stopSign.signed) && chanman.status != Initialized ==>
                r == Panic(chanman.CheckStatus().value.text)
      ensures err.Some? && !old(stopSign.signed) && chanman.status == Initialized ==>
                r == Ok(true)
                && chanman.errorCh.buf == old(chanman.errorCh.buf) + [Error(FullErrMsg(CodeErrorType(code), err.value.text))]
      ensures !r.Ok? || !r.value ==> chanman.errorCh != null ==> chanman.errorCh.buf == old(chanman.errorCh.buf)
    {
      if err.None? {
        return Ok(false);
      }
      var codePrefix := ParseCode(code)[0];
      var errorType := ErrorTypeOf(codePrefix);
      var cError := new CrawlerError(errorType, err.value.text);
      if stopSign.Signed() {
        stopSign.Deal(code);
        return Ok(false);
      }
      var ch := chanman.ErrorChan();
      if !ch.Ok? {
        return Panic(ch.error.text);
      }
      var msg := cError.Error();
      ch.value.Send(Error(msg));
      return Ok(true);
    }
  }

  /** The configuration stages succeed exactly when every check passes; the scheduler
      then holds all the arguments, all the components, an empty URL map, the primary
      domain of the first request, and that request, at depth 0, after the cached ones. */
  lemma ConfigureSucceeds(s: Fields, channelLen: nat, poolSize: uint32, crawlDepth: uint32,
                          hasHttpClientGenerator: bool, downloaderPool: Result<()>,
                          analyzerPool: Result<()>, itemProcessors: Option<seq<bool>>,
                          firstHttpReq: Option<HttpRequest>)
    ensures var p := ConfigurePlan(s, channelLen, poolSize, crawlDepth, hasHttpClientGenerator,
                                   downloaderPool, analyzerPool, itemProcessors, firstHttpReq);
      && (p.result.Ok? <==>
            poolSize != 0 && hasHttpClientGenerator && downloaderPool.Ok? && analyzerPool.Ok?
            && itemProcessors.Some? && (forall j :: 0 <= j < |itemProcessors.value| ==> itemProcessors.value[j])
            && firstHttpReq.Some? && GetPrimaryDomain(firstHttpReq.value.host).Ok?)
      && (p.result.Ok? ==>
            p.builtChanman && p.armedStopSign
            && p.fields == s.(channelLen := channelLen, poolSize := poolSize, crawlDepth := crawlDepth,
                              hasDlpool := true, hasAnalyzerPool := true, hasItemPipeline := true,
                              urlMap := map[], primaryDomain := GetPrimaryDomain(firstHttpReq.value.host).value,
                              reqCache := s.reqCache + [Request(firstHttpReq, 0)]))
  {
  }

  /** A failed configuration queues nothing and leaves the primary domain and the
      running flag as they were; it builds a channel manager exactly when the pool
      size was accepted, and arms the stop sign exactly when the item processors were. */
  lemma ConfigureFailure(s: Fields, channelLen: nat, poolSize: uint32, crawlDepth: uint32,
                         hasHttpClientGenerator: bool, downloaderPool: Result<()>,
                         analyzerPool: Result<()>, itemProcessors: Option<seq<bool>>,
                         firstHttpReq: Option<HttpRequest>)
    ensures var p := ConfigurePlan(s, channelLen, poolSize, crawlDepth, hasHttpClientGenerator,
                                   downloaderPool, analyzerPool, itemProcessors, firstHttpReq);
      !p.result.Ok? ==>
        && p.fields.reqCache == s.reqCache && p.fields.primaryDomain == s.primaryDomain
        && p.fields.running == s.running && p.fields.channelLen == channelLen
        && (p.builtChanman <==> poolSize != 0)
        && (p.armedStopSign <==> poolSize != 0 && hasHttpClientGenerator && downloaderPool.Ok? && analyzerPool.Ok?
                                 && itemProcessors.Some? && FirstNil(itemProcessors.value).None?)
  {
  }

  /** The runtime panic of calling a method on a nil interface value. */
  const NilDereferenceMsg: string := "runtime error: invalid memory address or nil pointer dereference"

  /** A fresh scheduler can never start with the code as written: the first call fails
      on the never-set channel length field, whatever the arguments, and leaves the
      running flag set, so every later call is refused as already started. */
  method FreshSchedulerNeverStarts(channelLen: nat, poolSize: uint32, crawlDepth: uint32,
                                   hasHttpClientGenerator: bool, downloaderPool: Result<()>,
                                   analyzerPool: Result<()>, itemProcessors: Option<seq<bool>>,
                                   firstHttpReq: Option<HttpRequest>)
    returns (first: Result<()>, second: Result<()>)
    ensures first == Err(Error(ChannelLenZeroMsg))
    ensures second == Err(Error(StartedMsg))
  {
    var s := new Scheduler();
    first := s.Start(channelLen, poolSize, crawlDepth, hasHttpClientGenerator,
                     downloaderPool, analyzerPool, itemProcessors, firstHttpReq);
    second := s.Start(channelLen, poolSize, crawlDepth, hasHttpClientGenerator,
                      downloaderPool, analyzerPool, itemProcessors, firstHttpReq);
  }

  /** With the argument checked, a fresh scheduler given valid arguments starts: it
      records them, has an initialized manager of the requested length, and holds
      the first request, at depth 0, in its cache. */
  method FreshSchedulerStarts(channelLen: nat, poolSize: uint32, crawlDepth: uint32,
                              processors: seq<bool>, firstHttpReq: HttpRequest)
    returns (r: Result<()>, s: Scheduler)
    requires channelLen > 0 && poolSize > 0
    requires forall j :: 0 <= j < |processors| ==> processors[j]
    requires GetPrimaryDomain(firstHttpReq.host).Ok?
    ensures r == Ok(())
    ensures s.running == 1 && s.channelLen == channelLen && s.poolSize == poolSize && s.crawlDepth == crawlDepth
    ensures s.primaryDomain == GetPrimaryDomain(firstHttpReq.host).value
    ensures s.reqCache == [Request(Some(firstHttpReq), 0)]
    ensures fresh(s.chanman) && ManagerReady(s.chanman, channelLen)
  {
    s := new Scheduler();
    r := s.StartChecked(channelLen, poolSize, crawlDepth, true, Ok(()), Ok(()), Some(processors), Some(firstHttpReq));
  }
}
