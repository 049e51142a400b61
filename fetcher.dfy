/**
 * One upstream fetch. The HTTP round trip itself (`http.Get`, `io.ReadAll`,
 * `resp.Body.Close`) is not modelled: what the network answered is given as
 * an `Exchange` value, and the fetch reduces it to exactly one `Result`,
 * which it sends on the request's buffered result channel.
 */
module Fetcher {

  /** `http.StatusOK`. */
  const StatusOK: int := 200

  /** What reading the response body to its end gave. */
  datatype BodyRead = Read(data: string) | ReadError(err: string)

  /** What `http.Get` gave for one URL. */
  datatype Exchange =
    | TransportError(err: string)
    | Reply(statusCode: int, status: string, body: BodyRead)

  /** The `result` record: a body, or an error with its message. */
  datatype Result = Ok(body: string) | Err(err: string)

  /** True when `marker` occurs somewhere in `s`. */
  predicate Contains(s: string, marker: string)
    decreases |s|
  {
    marker <= s || (s != [] && Contains(s[1..], marker))
  }

  /**
   * The result `fetchURL` sends for `url` when the network answered `ex`:
   * a transport error, a status other than exactly 200 or a failed body read
   * is an error; otherwise the whole body is the result.
   */
  function Fetch(url: string, ex: Exchange): (r: Result)
    ensures r.Ok? <==> ex.Reply? && ex.statusCode == StatusOK && ex.body.Read?
    ensures r.Ok? ==> r.body == ex.body.data
    ensures ex.Reply? && ex.statusCode != StatusOK ==> r.Err? && Contains(r.err, "bad status")
  {
    match ex
    case TransportError(e) => Err("failed to get " + url + ": " + e)
    case Reply(code, status, body) =>
      if code != StatusOK then
        var msg := "bad status for " + url + ": " + status;
        assert "bad status" <= msg;
        Err(msg)
      else
        match body
        case ReadError(e) => Err("failed to read body from " + url + ": " + e)
        case Read(data) => Ok(data)
  }

  /**
   * A buffered Go channel of results, `make(chan result, capacity)`. The
   * buffer holds what was sent and not yet received, oldest first.
   */
  class Channel {
    const capacity: nat
    var buffer: seq<Result>
    var closed: bool

    constructor (capacity: nat)
      ensures this.capacity == capacity && buffer == [] && !closed
    {
      this.capacity := capacity;
      buffer := [];
      closed := false;
    }

    /** `ch <- r` on a channel with room left: it does not block. */
    method Send(r: Result)
      requires !closed && |buffer| < capacity
      modifies this
      ensures buffer == old(buffer) + [r] && !closed
    {
      buffer := buffer + [r];
    }

    /** `close(ch)`. */
    method Close()
      requires !closed
      modifies this
      ensures closed && buffer == old(buffer)
    {
      closed := true;
    }

    /**
     * `r, ok := <-ch` where it does not block: the oldest buffered result,
     * or `ok == false` once the channel is closed and drained.
     */
    method Receive() returns (r: Result, ok: bool)
      requires closed || buffer != []
      modifies this
      ensures closed == old(closed)
      ensures ok == (old(buffer) != [])
      ensures ok ==> r == old(buffer)[0] && buffer == old(buffer)[1..]
      ensures !ok ==> buffer == old(buffer) && r == Ok("")
    {
      if buffer == [] {
        // the zero `result{}`: an empty body and a nil error
        r, ok := Ok(""), false;
      } else {
        r, ok := buffer[0], true;
        buffer := buffer[1..];
      }
    }
  }

  /**
   * `fetchURL`: every path through it sends exactly one result on `ch`, the
   * one `Fetch` gives, and nothing else changes on the channel.
   */
  method FetchURL(url: string, ex: Exchange, ch: Channel)
    requires !ch.closed && |ch.buffer| < ch.capacity
    modifies ch
    ensures ch.buffer == old(ch.buffer) + [Fetch(url, ex)] && !ch.closed
  {
    match ex
    case TransportError(e) =>
      ch.Send(Err("failed to get " + url + ": " + e));
      return;
    case Reply(code, status, body) =>
      if code != StatusOK {
        ch.Send(Err("bad status for " + url + ": " + status));
        return;
      }
      match body
      case ReadError(e) =>
        ch.Send(Err("failed to read body from " + url + ": " + e));
        return;
      case Read(data) =>
        ch.Send(Ok(data));
  }
}
