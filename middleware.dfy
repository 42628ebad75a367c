/** The channel manager of middleware/chanmanager.go: a three-state lifecycle
    (uninitialized, initialized, closed) owning four bounded channels. */
module Middleware {
  import opened Common
  import opened Base

  /** A buffered Go channel: capacity, buffered values in FIFO order, closed flag. */
  class Channel<T> {
    const cap: nat
    var buf: seq<T>
    var closed: bool

    ghost predicate Valid()
      reads this
    {
      |buf| <= cap
    }

    /** `make(chan T, cap)`. */
    constructor (cap: nat)
      ensures this.cap == cap && buf == [] && !closed && Valid()
    {
      this.cap := cap;
      buf := [];
      closed := false;
    }

    /** `ch <- x`. Sending on a closed channel panics and on a full one blocks,
        so the model requires an open channel with room. */
    method Send(x: T)
      requires Valid() && !closed && |buf| < cap
      modifies this
      ensures Valid() && !closed
      ensures buf == old(buf) + [x]
    {
      buf := buf + [x];
    }

    /** `close(ch)`; closing twice panics. Buffered values stay readable. */
    method Close()
      requires !closed
      modifies this
      ensures closed && buf == old(buf)
    {
      closed := true;
    }
  }

  /** `ChannelManagerStatus`. */
  datatype Status = Uninitialized | Initialized | Closed

  /** The labels of `statusNameMap`, as written: CLOSED and UNINITIALIZED carry each other's name. */
  function StatusName(s: Status): (r: string)
    ensures s == Closed ==> r == "uninitialized"
    ensures s == Uninitialized ==> r == "closed"
    ensures s == Initialized ==> r == "initialized"
  {
    match s
    case Closed => "uninitialized"
    case Initialized => "initialized"
    case Uninitialized => "closed"
  }

  const DefaultChanLen: nat := 50

  /** A managed channel: capacity `len`, within it, closed exactly when `closed`. */
  ghost predicate Sized<T>(c: Channel<T>, len: nat, closed: bool)
    reads c
  {
    c.cap == len && c.Valid() && c.closed == closed
  }

  class ChannelManager {
    var channelLen: nat
    var reqCh: Channel?<Request>
    var respCh: Channel?<Response>
    var itemCh: Channel?<Item>
    var errorCh: Channel?<Error>
    var status: Status

    /** Before the first `Init` there are no channels; afterwards all four exist, have
        capacity `channelLen`, and are open exactly while the status is initialized. */
    ghost predicate Valid()
      reads this, reqCh, respCh, itemCh, errorCh
    {
      && (status == Uninitialized ==>
            channelLen == 0 && reqCh == null && respCh == null && itemCh == null && errorCh == null)
      && (status != Uninitialized ==>
            && reqCh != null && respCh != null && itemCh != null && errorCh != null
            && channelLen > 0
            && Sized(reqCh, channelLen, status == Closed) && Sized(respCh, channelLen, status == Closed)
            && Sized(itemCh, channelLen, status == Closed) && Sized(errorCh, channelLen, status == Closed))
    }

    /** The objects `Valid` depends on: the manager and its four channels. */
    ghost function Footprint(): set<object?>
      reads this
    {
      {this as object?, reqCh as object?, respCh as object?, itemCh as object?, errorCh as object?}
    }

    /** The zero value `&myChannelManager{}`. */
    constructor ()
      ensures Valid()
      ensures status == Uninitialized && channelLen == 0
    {
      channelLen := 0;
      reqCh, respCh, itemCh, errorCh := null, null, null, null;
      status := Uninitialized;
    }

    /** The recorded length: 0 exactly while no `Init` has run. */
    function ChannelLen(): (r: nat)
      reads this, reqCh, respCh, itemCh, errorCh
      ensures r == channelLen
      ensures Valid() ==> (r == 0 <==> status == Uninitialized)
    {
      channelLen
    }

    /** The recorded status: initialized exactly when the status check passes. */
    function Status(): (r: Status)
      reads this
      ensures r == status
      ensures r == Initialized <==> CheckStatus().None?
    {
      status
    }

    /** Gives up when already initialized and `reset` is false; otherwise installs
        four fresh empty channels of capacity `channelLen`, from any status, closed
        included. A zero length panics in the source, so the model requires it positive. */
    method Init(channelLen: nat, reset: bool) returns (ok: bool)
      requires Valid() && channelLen > 0
      modifies this
      ensures Valid()
      ensures ok <==> !(old(status) == Initialized && !reset)
      ensures !ok ==> unchanged(this)
      ensures ok ==> Status() == Initialized && ChannelLen() == channelLen
      ensures ok ==> fresh(reqCh) && fresh(respCh) && fresh(itemCh) && fresh(errorCh)
      ensures ok ==> reqCh.buf == [] && respCh.buf == [] && itemCh.buf == [] && errorCh.buf == []
    {
      if status == Initialized && !reset {
        return false;
      }
      var rq := new Channel<Request>(channelLen);
      var rs := new Channel<Response>(channelLen);
      var it := new Channel<Item>(channelLen);
      var er := new Channel<Error>(channelLen);
      Install(channelLen, rq, rs, it, er);
      return true;
    }

    /** The assignments of `Init`: the new channels and the initialized status. */
    method Install(channelLen: nat, rq: Channel<Request>, rs: Channel<Response>, it: Channel<Item>, er: Channel<Error>)
      requires channelLen > 0
      requires Sized(rq, channelLen, false) && Sized(rs, channelLen, false)
      requires Sized(it, channelLen, false) && Sized(er, channelLen, false)
      modifies this
      ensures Valid() && status == Initialized && this.channelLen == channelLen
      ensures reqCh == rq && respCh == rs && itemCh == it && errorCh == er
    {
      this.channelLen, reqCh, respCh, itemCh, errorCh := channelLen, rq, rs, it, er;
      status := Initialized;
    }

    /** Closes all four channels, only from the initialized status. */
    method Close() returns (ok: bool)
      requires Valid()
      modifies this, reqCh, respCh, itemCh, errorCh
      ensures Valid()
      ensures ok <==> old(status) == Initialized
      ensures !ok ==> unchanged(this)
      ensures !ok && old(status) == Closed ==> unchanged(old(reqCh), old(respCh), old(itemCh), old(errorCh))
      ensures reqCh == old(reqCh) && respCh == old(respCh) && itemCh == old(itemCh) && errorCh == old(errorCh)
      ensures ChannelLen() == old(channelLen)
      ensures ok ==> Status() == Closed
      ensures ok ==> reqCh.closed && respCh.closed && itemCh.closed && errorCh.closed
      ensures ok ==> (reqCh.buf == old(reqCh.buf) && respCh.buf == old(respCh.buf)
                      && itemCh.buf == old(itemCh.buf) && errorCh.buf == old(errorCh.buf))
    {
      if status != Initialized {
        return false;
      }
      reqCh.Close();
      respCh.Close();
      itemCh.Close();
      errorCh.Close();
      status := Closed;
      return true;
    }

    /** No error while initialized; otherwise an error naming the status (by the swapped labels). */
    function CheckStatus(): (r: Option<Error>)
      reads this
      ensures r.None? <==> status == Initialized
    {
      if status == Initialized then None
      else Some(Error("The undescribe status of channel manager:" + StatusName(status) + "!\n"))
    }

    function ReqChan(): (r: Result<Channel<Request>>)
      reads this, reqCh, respCh, itemCh, errorCh
      requires Valid()
      ensures r.Ok? <==> status == Initialized
      ensures r.Ok? ==> r.value == reqCh && !r.value.closed
      ensures !r.Ok? ==> r == Err(CheckStatus().value)
    {
      match CheckStatus()
      case None => Ok(reqCh as Channel<Request>)
      case Some(e) => Err(e)
    }

    function RespChan(): (r: Result<Channel<Response>>)
      reads this, reqCh, respCh, itemCh, errorCh
      requires Valid()
      ensures r.Ok? <==> status == Initialized
      ensures r.Ok? ==> r.value == respCh && !r.value.closed
      ensures !r.Ok? ==> r == Err(CheckStatus().value)
    {
      match CheckStatus()
      case None => Ok(respCh as Channel<Response>)
      case Some(e) => Err(e)
    }

    function ItemChan(): (r: Result<Channel<Item>>)
      reads this, reqCh, respCh, itemCh, errorCh
      requires Valid()
      ensures r.Ok? <==> status == Initialized
      ensures r.Ok? ==> r.value == itemCh && !r.value.closed
      ensures !r.Ok? ==> r == Err(CheckStatus().value)
    {
      match CheckStatus()
      case None => Ok(itemCh as Channel<Item>)
      case Some(e) => Err(e)
    }

    function ErrorChan(): (r: Result<Channel<Error>>)
      reads this, reqCh, respCh, itemCh, errorCh
      requires Valid()
      ensures r.Ok? <==> status == Initialized
      ensures r.Ok? ==> r.value == errorCh && !r.value.closed
      ensures !r.Ok? ==> r == Err(CheckStatus().value)
    {
      match CheckStatus()
      case None => Ok(errorCh as Channel<Error>)
      case Some(e) => Err(e)
    }
  }

  /** `NewChannelManager`: a zero length means the default of 50; the result is initialized. */
  method NewChannelManager(channelLen: nat) returns (m: ChannelManager)
    ensures fresh(m) && m.Valid()
    ensures fresh(m.reqCh) && fresh(m.respCh) && fresh(m.itemCh) && fresh(m.errorCh)
    ensures m.Status() == Initialized
    ensures m.ChannelLen() == if channelLen == 0 then DefaultChanLen else channelLen
    ensures m.reqCh.buf == [] && m.respCh.buf == [] && m.itemCh.buf == [] && m.errorCh.buf == []
  {
    var l := channelLen;
    if l <= 0 {
      l := DefaultChanLen;
    }
    m := new ChannelManager();
    var _ := m.Init(l, true);
  }

  /** The lifecycle end to end: accessors fail before `Init`, `Close` before `Init` is
      refused, a second `Init` without reset is refused, accessors fail after `Close`
      with the swapped "uninitialized" label, a second `Close` is refused, and a closed
      manager accepts `Init` again. */
  method Lifecycle(channelLen: nat)
    returns (failBeforeInit: bool, closeBeforeInit: bool, initOnce: bool, servesAfterInit: bool,
             initTwice: bool, closeOnce: bool, failAfterClose: bool, closedLabel: string,
             closeTwice: bool, reinit: bool)
    requires channelLen > 0
    ensures failBeforeInit && !closeBeforeInit
    ensures initOnce && servesAfterInit && !initTwice
    ensures closeOnce && failAfterClose && closedLabel == "uninitialized"
    ensures !closeTwice && reinit
  {
    var m := new ChannelManager();
    failBeforeInit := m.ReqChan().Err? && m.RespChan().Err? && m.ItemChan().Err? && m.ErrorChan().Err?;
    closeBeforeInit := m.Close();
    initOnce := m.Init(channelLen, false);
    servesAfterInit := m.ReqChan().Ok? && m.RespChan().Ok? && m.ItemChan().Ok? && m.ErrorChan().Ok?;
    initTwice := m.Init(channelLen, false);
    closeOnce := m.Close();
    failAfterClose := m.ReqChan().Err? && m.RespChan().Err? && m.ItemChan().Err? && m.ErrorChan().Err?;
    closedLabel := StatusName(m.Status());
    closeTwice := m.Close();
    reinit := m.Init(channelLen, false);
  }
}
