/** The crawler's shared data types (base/base.go): requests, responses, items,
    the `Data` variants a parser may emit, the crawler error with its cached
    message, and the stop sign that the scheduler consults before enqueuing. */
module Base {
  import opened Common

  /** Stand-in for `*http.Request`: the core reads only whether `URL` is set and `Host`. */
  datatype HttpRequest = HttpRequest(url: Option<string>, host: string)

  /** Stand-in for `*http.Response`: the core reads only whether `Body` is set. */
  datatype HttpResponse = HttpResponse(body: Option<nat>)

  /** A fetch descriptor and its hop count from the seed. */
  datatype Request = Request(httpReq: Option<HttpRequest>, depth: uint32) {
    function HttpReq(): (r: Option<HttpRequest>) ensures r == httpReq { httpReq }
    function Depth(): (r: uint32) ensures r == depth { depth }
    /** A request is valid when it has an http request with its URL set. */
    predicate Valid(): (b: bool)
      ensures b <==> HttpReq().Some? && HttpReq().value.url.Some?
    {
      httpReq.Some? && httpReq.value.url.Some?
    }
  }

  /** `NewRequest`: wraps an http request with a depth. */
  function NewRequest(httpReq: Option<HttpRequest>, depth: uint32): (r: Request)
    ensures r.HttpReq() == httpReq && r.Depth() == depth
  {
    Request(httpReq, depth)
  }

  /** A downloaded page and the depth of the request that produced it. */
  datatype Response = Response(httpResp: Option<HttpResponse>, depth: uint32) {
    function HttpResp(): (r: Option<HttpResponse>) ensures r == httpResp { httpResp }
    function Depth(): (r: uint32) ensures r == depth { depth }
    /** A response is valid when it has an http response with its body set. */
    predicate Valid(): (b: bool)
      ensures b <==> HttpResp().Some? && HttpResp().value.body.Some?
    {
      httpResp.Some? && httpResp.value.body.Some?
    }
  }

  /** `NewResponse`: wraps an http response with a depth. */
  function NewResponse(httpResp: Option<HttpResponse>, depth: uint32): (r: Response)
    ensures r.HttpResp() == httpResp && r.Depth() == depth
  {
    Response(httpResp, depth)
  }

  /** The value side of an item entry; its contents are never inspected. */
  datatype Value = Value(tag: nat)

  /** `base.Item`, a possibly-nil map from keys to values. */
  datatype Item = Item(entries: Option<map<string, Value>>)

  /** What a parse function may put in its data list (a non-nil `base.Data`):
      a `*Request`, a `*Item`, or a value of any other dynamic type
      (including a bare `Item`, which the scheduler's type switch does not match). */
  datatype Data = ReqData(req: Request) | ItemData(item: Item) | OtherData(tag: nat)

  /** The crawler error categories (`ErrorType`); the empty type means "none". */
  const DownloadError: string := "Downloader Error"
  const AnalyzerError: string := "Analyzer Error"
  const ItemProcessorError: string := "Item Processor Error"

  const CrawlerErrorPrefix: string := "Crawler Error:"

  /** The text `genFullErrMsg` renders for a crawler error. */
  function FullErrMsg(errType: string, errMsg: string): (r: string)
    ensures |r| == |CrawlerErrorPrefix| + (if errType == "" then 0 else |errType| + 2) + |errMsg| + 1
    ensures r[..|CrawlerErrorPrefix|] == CrawlerErrorPrefix && r[|r| - 1] == '\n'
    ensures errType == "" ==> r[|CrawlerErrorPrefix|..|r| - 1] == errMsg
    ensures errType != "" ==>
      var k := |CrawlerErrorPrefix| + |errType|;
      r[|CrawlerErrorPrefix|..k] == errType && r[k..k + 2] == ": " && r[k + 2..|r| - 1] == errMsg
  {
    var typed := if errType != "" then errType + ": " else "";
    CrawlerErrorPrefix + typed + errMsg + "\n"
  }

  /** Where a typed message puts its type and the ": " that follows it. */
  lemma TypedMessageLayout(t: string, m: string)
    requires t != ""
    ensures var r := FullErrMsg(t, m);
      |r| > |CrawlerErrorPrefix| + |t| && r[|CrawlerErrorPrefix| + |t|] == ':'
      && forall i :: 0 <= i < |t| ==> r[|CrawlerErrorPrefix| + i] == t[i]
  {
    var r := FullErrMsg(t, m);
    var k := |CrawlerErrorPrefix| + |t|;
    assert r[k..k + 2] == ": ";
    forall i | 0 <= i < |t| ensures r[|CrawlerErrorPrefix| + i] == t[i] {
      assert r[|CrawlerErrorPrefix|..k][i] == t[i];
    }
  }

  /** Two typed crawler errors render the same message only if they agree on type and
      message, provided the types contain no ':' (true of the three categories). An untyped
      error can still imitate a typed one: ("", "Analyzer Error: x") renders like
      ("Analyzer Error", "x"). */
  lemma FullErrMsgInjective(t1: string, m1: string, t2: string, m2: string)
    requires t1 != "" && t2 != "" && ':' !in t1 && ':' !in t2
    requires FullErrMsg(t1, m1) == FullErrMsg(t2, m2)
    ensures t1 == t2 && m1 == m2
  {
    TypedMessageLayout(t1, m1);
    TypedMessageLayout(t2, m2);
    var r := FullErrMsg(t1, m1);
    var p := |CrawlerErrorPrefix|;
    assert r[p..p + |t1|] == t1 && r[p..p + |t2|] == t2;
  }

  /** `myCrawlerError`: type and message fixed at construction, full message cached on first use. */
  class CrawlerError {
    const errType: string
    const errMsg: string
    var fullErrMsg: string

    /** The cache is either empty or holds the rendered message. */
    ghost predicate Valid()
      reads this
    {
      fullErrMsg == "" || fullErrMsg == FullErrMsg(errType, errMsg)
    }

    /** `NewCrawlerError`. */
    constructor (errType: string, errMsg: string)
      ensures this.errType == errType && this.errMsg == errMsg && fullErrMsg == ""
      ensures Valid()
    {
      this.errType := errType;
      this.errMsg := errMsg;
      fullErrMsg := "";
    }

    /** The type fixed at construction, the one the rendered message names. */
    function Type(): (r: string)
      reads this
      ensures r == errType
      ensures Valid() && fullErrMsg != "" && r != "" ==>
                fullErrMsg[|CrawlerErrorPrefix|..|CrawlerErrorPrefix| + |r|] == r
    {
      errType
    }

    /** Builds the message in a buffer and stores it in the cache. */
    method GenFullErrMsg()
      modifies this
      ensures fullErrMsg == FullErrMsg(errType, errMsg)
    {
      var buf := CrawlerErrorPrefix;
      if errType != "" {
        buf := buf + errType;
        buf := buf + ": ";
      }
      buf := buf + errMsg;
      fullErrMsg := buf + "\n";
    }

    /** Renders the message on the first call and returns the cached text afterwards. */
    method Error() returns (s: string)
      requires Valid()
      modifies this
      ensures Valid()
      ensures s == FullErrMsg(errType, errMsg) && fullErrMsg == s
    {
      if fullErrMsg == "" {
        GenFullErrMsg();
      }
      s := fullErrMsg;
    }
  }

  /** Calling `Error()` twice yields the same text, and the second call finds it cached. */
  method ErrorIsCached(e: CrawlerError) returns (first: string, second: string)
    requires e.Valid()
    modifies e
    ensures first == second == FullErrMsg(e.errType, e.errMsg)
    ensures e.fullErrMsg == first
  {
    first := e.Error();
    second := e.Error();
  }

  /** The stop sign. Its implementation is not part of the source; the model keeps the
      signalled flag and the codes handed to `Deal`, in call order. */
  class StopSign {
    var signed: bool
    var dealt: seq<string>

    constructor ()
      ensures !signed && dealt == []
    {
      signed := false;
      dealt := [];
    }

    /** Whether the sign is raised; only `Sign` raises it and only `Reset` lowers it. */
    function Signed(): (r: bool)
      reads this
      ensures r == signed
    {
      signed
    }

    /** Raises the sign; reports whether this call was the one that raised it. */
    method Sign() returns (changed: bool)
      modifies this
      ensures signed && changed == !old(signed) && dealt == old(dealt)
    {
      changed := !signed;
      signed := true;
    }

    method Reset()
      modifies this
      ensures !signed && dealt == []
    {
      signed := false;
      dealt := [];
    }

    /** Accounts one unit of suppressed work to `code`; a no-op unless signalled. */
    method Deal(code: string)
      modifies this
      ensures signed == old(signed)
      ensures dealt == if old(signed) then old(dealt) + [code] else old(dealt)
    {
      if signed {
        dealt := dealt + [code];
      }
    }
  }
}
