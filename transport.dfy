/**
 * The I/O a session touches, reduced to state: a stream connection (what
 * the peer has delivered and what has been written to it) and a client's
 * delivery queue (a `multiprocessing.Queue` shared between the device and
 * the session process).
 */
module Transport {
  import opened Wrappers
  import opened Frames

  /** The bytes of a list of delivery segments, in order. */
  function Flat(segs: seq<seq<byte>>): seq<byte>
  {
    if segs == [] then [] else segs[0] + Flat(segs[1..])
  }

  /** The peer has closed: nothing more is delivered.  An empty segment
      stands for end-of-stream, and so does running out of segments. */
  predicate AtEnd(segs: seq<seq<byte>>)
  {
    segs == [] || segs[0] == []
  }

  /**
   * One `recv(n)`: at most `n` bytes of the next delivered segment; the rest
   * of that segment stays in the socket.  At end-of-stream, or for n == 0,
   * the chunk is empty and the socket is unchanged.
   */
  function Take(segs: seq<seq<byte>>, n: nat): (r: (seq<byte>, seq<seq<byte>>))
    ensures |r.0| <= n
    ensures Flat(segs) == r.0 + Flat(r.1)
    ensures r.0 == [] <==> n == 0 || AtEnd(segs)
    ensures r.0 == [] ==> r.1 == segs
  {
    if n == 0 || AtEnd(segs) then ([], segs)
    else if |segs[0]| <= n then (segs[0], segs[1..])
    else
      var rest := [segs[0][n..]] + segs[1..];
      assert Flat(rest) == segs[0][n..] + Flat(segs[1..]);
      assert segs[0] == segs[0][..n] + segs[0][n..];
      (segs[0][..n], rest)
  }

  datatype Event = Sent(w: Wire) | Paused(seconds: real)

  /** A connected stream socket, as the handler process sees it. */
  class Connection {
    /** Segments the peer will deliver, in arrival order; end-of-stream
        follows them (or an empty segment). */
    var inbound: seq<seq<byte>>
    /** Everything written with `sendall`, and the pauses between writes. */
    var trace: seq<Event>
    var closed: bool

    constructor (inbound: seq<seq<byte>>)
      ensures this.inbound == inbound && trace == [] && !closed
    {
      this.inbound := inbound;
      trace := [];
      closed := false;
    }

    method Recv(n: nat) returns (chunk: seq<byte>)
      modifies this
      ensures (chunk, inbound) == Take(old(inbound), n)
      ensures trace == old(trace) && closed == old(closed)
    {
      var r := Take(inbound, n);
      chunk, inbound := r.0, r.1;
    }

    method SendAll(w: Wire)
      modifies this
      ensures trace == old(trace) + [Sent(w)]
      ensures inbound == old(inbound) && closed == old(closed)
    {
      trace := trace + [Sent(w)];
    }

    /** `sleep(seconds)` before a write, recorded where the peer sees it. */
    method Sleep(seconds: real)
      modifies this
      ensures trace == old(trace) + [Paused(seconds)]
      ensures inbound == old(inbound) && closed == old(closed)
    {
      trace := trace + [Paused(seconds)];
    }

    method Close()
      modifies this
      ensures closed
      ensures inbound == old(inbound) && trace == old(trace)
    {
      closed := true;
    }
  }

  /** A client's unbounded FIFO delivery queue. */
  class ClientBuffer {
    var items: seq<Item>

    constructor ()
      ensures items == []
    {
      items := [];
    }

    method Put(x: Item)
      modifies this
      ensures items == old(items) + [x]
    {
      items := items + [x];
    }

    /** The consumer calls this only after `IsEmpty` answered false. */
    method Get() returns (x: Item)
      requires items != []
      modifies this
      ensures x == old(items)[0] && items == old(items)[1..]
    {
      x := items[0];
      items := items[1..];
    }

    method IsEmpty() returns (b: bool)
      ensures b <==> items == []
    {
      b := items == [];
    }
  }
}
