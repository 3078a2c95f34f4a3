/**
 * The per-connection handler (`Pmu.pdc_handler`): inbound length framing,
 * the command state machine and the paced delivery of queued measurements.
 * One iteration of the handler's loop is `Session.Step`; `StepSpec` is its
 * specification as a function of the state before the iteration.
 */
module Session {
  import opened Wrappers
  import opened Frames
  import opened Transport

  function Min(a: nat, b: nat): nat { if a <= b then a else b }

  /** The FRAMESIZE word at bytes 2-3 of the common frame header, read
      big-endian (IEEE C37.118.2-2011, section 6.2). */
  function FrameSize(data: seq<byte>): (n: nat)
    requires |data| >= 4
    ensures n < 0x1_0000
  {
    data[2] as int * 256 + data[3] as int
  }

  /** A size written big-endian into bytes 2-3 is the size read back. */
  lemma FrameSizeOfWrittenWord(data: seq<byte>, size: nat)
    requires |data| >= 4 && size < 0x1_0000
    requires data[2] as int == size / 256 && data[3] as int == size % 256
    ensures FrameSize(data) == size
  {
  }

  /** The pause before each measurement write: 1/rate seconds for a positive
      rate, otherwise -rate seconds (a rate of zero or below is a period). */
  function PacingDelay(rate: int): (d: real)
    ensures d >= 0.0
    ensures rate > 0 ==> d * (rate as real) == 1.0
    ensures rate <= 0 ==> d == -(rate as real)
  {
    if rate > 0 then 1.0 / (rate as real) else -(rate as real)
  }

  // ---------------------------------------------------------------------
  // Inbound framing
  // ---------------------------------------------------------------------

  /** Result of reading one inbound message.  `Stalled`: the peer closed (or
      the read size is zero) before four bytes arrived; the source then
      loops on empty reads for ever. */
  datatype Receipt = Stalled | Message(data: seq<byte>)

  /** The first read loop: `recv(bufferSize)` until at least four bytes are
      in hand. */
  function ReadHead(segs: seq<seq<byte>>, bufferSize: nat, acc: seq<byte>): (r: (Receipt, seq<seq<byte>>))
    ensures r.0.Message? ==> |r.0.data| >= 4 && acc <= r.0.data
    ensures r.0.Message? ==> acc + Flat(segs) == r.0.data + Flat(r.1)
    ensures r.0.Message? && |acc| < 4 ==> 0 < bufferSize && |r.0.data| < 4 + bufferSize
    ensures r.0.Stalled? ==> bufferSize == 0 || AtEnd(r.1)
    decreases |Flat(segs)|
  {
    if |acc| >= 4 then (Message(acc), segs)
    else
      var (chunk, rest) := Take(segs, bufferSize);
      if chunk == [] then (Stalled, segs)
      else ReadHead(rest, bufferSize, acc + chunk)
  }

  /** The second read loop: ask for `min(size - received, bufferSize)` bytes
      until `size` bytes are in hand or a read comes back empty. */
  function ReadBody(segs: seq<seq<byte>>, bufferSize: nat, acc: seq<byte>, size: nat): (r: (seq<byte>, seq<seq<byte>>))
    ensures acc <= r.0
    ensures acc + Flat(segs) == r.0 + Flat(r.1)
    ensures |acc| <= size ==> |r.0| <= size
    ensures |acc| >= size ==> r == (acc, segs)
    ensures |r.0| < size ==> bufferSize == 0 || AtEnd(r.1)
    decreases |Flat(segs)|
  {
    if |acc| >= size then (acc, segs)
    else
      var (chunk, rest) := Take(segs, Min(size - |acc|, bufferSize));
      if chunk == [] then (acc, segs)
      else ReadBody(rest, bufferSize, acc + chunk, size)
  }

  /** Both loops: the message read for one readable poll and the socket
      that is left. */
  function ReadFrameSpec(segs: seq<seq<byte>>, bufferSize: nat): (r: (Receipt, seq<seq<byte>>))
    ensures r.0.Message? ==> 0 < bufferSize && |r.0.data| >= 4
    ensures r.0.Message? ==> Flat(segs) == r.0.data + Flat(r.1)
    // a message shorter than its declared size means the peer closed
    ensures r.0.Message? && |r.0.data| < FrameSize(r.0.data) ==> AtEnd(r.1)
    // bytes beyond the declared size can only come from the first loop
    ensures r.0.Message? && |r.0.data| > FrameSize(r.0.data) ==> |r.0.data| < 4 + bufferSize
    ensures r.0.Stalled? ==> bufferSize == 0 || AtEnd(r.1)
  {
    var (head, rest) := ReadHead(segs, bufferSize, []);
    match head
    case Stalled => (Stalled, rest)
    case Message(acc) =>
      var (data, rest') := ReadBody(rest, bufferSize, acc, FrameSize(acc));
      assert data[2] == acc[2] && data[3] == acc[3];
      (Message(data), rest')
  }

  /** The two read loops of the handler, over the connection's socket. */
  method ReadFrame(conn: Connection, bufferSize: nat) returns (r: Receipt)
    modifies conn
    ensures (r, conn.inbound) == ReadFrameSpec(old(conn.inbound), bufferSize)
    ensures conn.trace == old(conn.trace) && conn.closed == old(conn.closed)
  {
    var received: seq<byte> := [];
    while |received| < 4
      invariant ReadHead(conn.inbound, bufferSize, received) == ReadHead(old(conn.inbound), bufferSize, [])
      invariant conn.trace == old(conn.trace) && conn.closed == old(conn.closed)
      decreases |Flat(conn.inbound)|
    {
      var chunk := conn.Recv(bufferSize);
      if chunk == [] {
        // the source keeps calling recv and gets nothing, for ever
        return Stalled;
      }
      received := received + chunk;
    }
    ghost var head, afterHead := received, conn.inbound;
    var bytesReceived := |received|;
    var total := FrameSize(received);
    while bytesReceived < total
      invariant bytesReceived == |received| && head <= received
      invariant ReadBody(conn.inbound, bufferSize, received, total) == ReadBody(afterHead, bufferSize, head, total)
      invariant conn.trace == old(conn.trace) && conn.closed == old(conn.closed)
      decreases |Flat(conn.inbound)|
    {
      var chunk := conn.Recv(Min(total - bytesReceived, bufferSize));
      if chunk == [] {
        break;
      }
      received := received + chunk;
      bytesReceived := bytesReceived + |chunk|;
    }
    r := Message(received);
  }

  /** A frame delivered whole at the front of the stream is read exactly,
      whatever the read size, as long as the first read brings in the four
      header bytes. */
  lemma {:induction false} ExactFrameIsRead(d: seq<byte>, more: seq<seq<byte>>, bufferSize: nat)
    requires |d| >= 4 && |d| == FrameSize(d) && bufferSize >= 4
    ensures ReadFrameSpec([d] + more, bufferSize) == (Message(d), more)
  {
    var segs := [d] + more;
    if |d| <= bufferSize {
      assert Take(segs, bufferSize) == (d, more);
      assert [] + d == d;
      assert ReadHead(more, bufferSize, d) == (Message(d), more);
      assert ReadHead(segs, bufferSize, []) == (Message(d), more);
    } else {
      var rest := [d[bufferSize..]] + more;
      assert Take(segs, bufferSize) == (d[..bufferSize], rest);
      assert [] + d[..bufferSize] == d[..bufferSize];
      assert ReadHead(rest, bufferSize, d[..bufferSize]) == (Message(d[..bufferSize]), rest);
      assert ReadHead(segs, bufferSize, []) == (Message(d[..bufferSize]), rest);
      BodyReadsRemainder(d[..bufferSize], d[bufferSize..], more, bufferSize, FrameSize(d));
      assert d[..bufferSize] + d[bufferSize..] == d;
    }
  }

  /** The second loop reads exactly the rest of a segment that completes the
      declared size. */
  lemma {:induction false} BodyReadsRemainder(acc: seq<byte>, tail: seq<byte>, more: seq<seq<byte>>, bufferSize: nat, size: nat)
    requires |acc + tail| == size && tail != [] && bufferSize > 0
    ensures ReadBody([tail] + more, bufferSize, acc, size) == (acc + tail, more)
    decreases |tail|
  {
    var segs := [tail] + more;
    var n := Min(size - |acc|, bufferSize);
    if |tail| <= n {
      assert Take(segs, n) == (tail, more);
      assert ReadBody(more, bufferSize, acc + tail, size) == (acc + tail, more);
    } else {
      var rest := [tail[n..]] + more;
      assert Take(segs, n) == (tail[..n], rest);
      BodyReadsRemainder(acc + tail[..n], tail[n..], more, bufferSize, size);
      assert acc + tail[..n] + tail[n..] == acc + tail;
    }
  }

  /** Two frames that arrive in one segment no larger than the read size
      are taken by the first read together, fail the exact-size test and are
      both dropped. */
  lemma CoalescedFramesAreDropped(d: seq<byte>, e: seq<byte>, more: seq<seq<byte>>, bufferSize: nat)
    requires |d| >= 4 && |d| == FrameSize(d) && e != [] && |d + e| <= bufferSize
    ensures ReadFrameSpec([d + e] + more, bufferSize) == (Message(d + e), more)
    ensures |d + e| != FrameSize(d + e)
  {
    var segs := [d + e] + more;
    assert Take(segs, bufferSize) == (d + e, more);
    assert [] + (d + e) == d + e;
    assert ReadHead(more, bufferSize, d + e) == (Message(d + e), more);
    assert (d + e)[2] == d[2] && (d + e)[3] == d[3];
  }

  // ---------------------------------------------------------------------
  // What one poll hears
  // ---------------------------------------------------------------------

  /** The frame codec's answer for a byte string (the codec itself is not
      part of this model). */
  datatype Decoded = Decoded(frame: Frame) | FrameError | OtherError

  datatype Heard =
    | Quiet         // the poll found nothing to read
    | Spin          // stuck in the first read loop for good
    | Incomplete    // accumulated length differs from the declared size
    | Unknown       // the codec raised FrameError
    | Broken        // the codec raised another exception
    | Got(frame: Frame)

  /** The bytes `Listen` consumed from the stream. */
  function Consumed(before: seq<seq<byte>>, after: seq<seq<byte>>): seq<byte>
  {
    var all, rest := Flat(before), Flat(after);
    if |rest| <= |all| then all[..|all| - |rest|] else []
  }

  /** What the handler makes of the codec's answer for a frame of exactly
      its declared size. */
  function HeardOf(answer: Decoded): (h: Heard)
    ensures h.Got? || h.Unknown? || h.Broken?
    ensures h.Got? <==> answer.Decoded?
    ensures h.Got? ==> h.frame == answer.frame
    // only an exception other than FrameError ends the handler
    ensures h.Broken? <==> answer.OtherError?
  {
    match answer
    case Decoded(f) => Got(f)
    case FrameError => Unknown
    case OtherError => Broken
  }

  /** One poll: nothing when the socket is not readable; otherwise read a
      message and decode it only when its length matches its declared size. */
  function Listen(readable: bool, segs: seq<seq<byte>>, bufferSize: nat, decode: seq<byte> -> Decoded): (r: (Heard, seq<seq<byte>>))
    ensures !readable ==> r == (Quiet, segs)
    ensures readable ==> r.1 == ReadFrameSpec(segs, bufferSize).1
    ensures readable ==> (r.0 == Spin <==> ReadFrameSpec(segs, bufferSize).0.Stalled?)
    ensures readable && ReadFrameSpec(segs, bufferSize).0.Message? ==>
      var d := ReadFrameSpec(segs, bufferSize).0.data;
      r.0 == (if |d| == FrameSize(d) then HeardOf(decode(d)) else Incomplete)
    ensures r.0.Got? || r.0.Unknown? || r.0.Broken? ==>
      var d := Consumed(segs, r.1);
      |d| >= 4 && |d| == FrameSize(d) &&
      decode(d) == (if r.0.Got? then Decoded(r.0.frame) else if r.0.Unknown? then FrameError else OtherError)
    ensures r.0.Incomplete? ==> var d := Consumed(segs, r.1); |d| >= 4 && |d| != FrameSize(d)
  {
    if !readable then (Quiet, segs)
    else
      var (receipt, rest) := ReadFrameSpec(segs, bufferSize);
      match receipt
      case Stalled => (Spin, rest)
      case Message(data) =>
        assert Consumed(segs, rest) == data;
        if |data| != FrameSize(data) then (Incomplete, rest)
        else (HeardOf(decode(data)), rest)
  }

  /** The command keywords of the command frame (IEEE C37.118.2-2011,
      section 6.6: turn transmission on and off, send HDR, CFG-1, CFG-2 or
      CFG-3), and any other keyword. */
  datatype Keyword = Start | Stop | SendHeader | SendCfg1 | SendCfg2 | SendCfg3 | Unrecognised

  /** The handler's `if command == "start" ... elif ...` chain. */
  function KeywordOf(c: string): (k: Keyword)
    ensures k == Start <==> c == "start"
    ensures k == Stop <==> c == "stop"
    ensures k == SendHeader <==> c == "header"
    ensures k == SendCfg1 <==> c == "cfg1"
    ensures k == SendCfg2 <==> c == "cfg2"
    ensures k == SendCfg3 <==> c == "cfg3"
  {
    if c == "start" then Start
    else if c == "stop" then Stop
    else if c == "header" then SendHeader
    else if c == "cfg1" then SendCfg1
    else if c == "cfg2" then SendCfg2
    else if c == "cfg3" then SendCfg3
    else Unrecognised
  }

  /** The command a poll delivers: only a command frame with a non-empty
      command counts (`if command:`). */
  function CommandOf(h: Heard): (k: Option<Keyword>)
    ensures k.Some? <==> h.Got? && h.frame.Command? && h.frame.command.Some? && h.frame.command.value != ""
    ensures k.Some? ==> k.value == KeywordOf(h.frame.command.value)
  {
    if h.Got? && h.frame.Command? && h.frame.command.Some? && h.frame.command.value != "" then
      Some(KeywordOf(h.frame.command.value))
    else None
  }

  // ---------------------------------------------------------------------
  // Commands and measurements
  // ---------------------------------------------------------------------

  /** Log lines the handler writes. */
  datatype Note =
    | ConnectionFrom
    | ReceivedCommand(command: Option<string>)
    | ReceivedFrame
    | UnknownMessage
    | NotReceivedCompletely
    | StartSending
    | StopSending
    | HeaderSent
    | Cfg1Sent
    | Cfg2Sent
    | Cfg3Sent
    | MessageSent
    | ConnectionClosed

  /** The frames the handler answers with, as handed to its process; the
      device's `cfg1` slot may be empty (None). */
  datatype Answers = Answers(header: Frame, cfg1: Option<Frame>, cfg2: Frame, cfg3: Cfg3Slot)

  /** What a command does: the new streaming flag, at most one reply, the
      log lines, and whether it raised (closing the connection). */
  datatype Reaction = Reaction(streaming: bool, reply: Option<Wire>, notes: seq<Note>, crashed: bool)

  function HeardNotes(h: Heard): (notes: seq<Note>)
    ensures |notes| <= 1
    ensures notes == [] <==> h.Quiet? || h.Spin? || h.Broken?
  {
    match h
    case Quiet => []
    case Spin => []
    case Broken => []
    case Incomplete => [NotReceivedCompletely]
    case Unknown => [UnknownMessage]
    case Got(f) => if f.Command? then [ReceivedCommand(f.command)] else [ReceivedFrame]
  }

  function React(streaming: bool, command: Option<Keyword>, ans: Answers, stamp: bool): (r: Reaction)
    // only start and stop move the flag, and each is idempotent
    ensures command == Some(Start) ==> r.streaming
    ensures command == Some(Stop) ==> !r.streaming
    ensures command != Some(Start) && command != Some(Stop) ==> r.streaming == streaming
    // header, cfg1 and cfg2 each answer with exactly one frame, restamped iff stamp
    ensures r.reply.Some? <==>
      command == Some(SendHeader) || (command == Some(SendCfg1) && ans.cfg1.Some?) || command == Some(SendCfg2)
    ensures command == Some(SendHeader) ==> r.reply == Some(Encoded(ans.header, stamp))
    ensures command == Some(SendCfg1) && ans.cfg1.Some? ==> r.reply == Some(Encoded(ans.cfg1.value, stamp))
    ensures command == Some(SendCfg2) ==> r.reply == Some(Encoded(ans.cfg2, stamp))
    // an empty cfg1 slot, or cfg3 (the slot never holds a frame), raises
    // before anything is written; "sent" is logged for an empty cfg3 slot
    ensures r.crashed <==>
      (command == Some(SendCfg1) && ans.cfg1.None?) || (command == Some(SendCfg3) && ans.cfg3 == Cfg3Class)
    ensures command == Some(SendCfg3) && ans.cfg3 == NoCfg3 ==> r.notes == [Cfg3Sent]
    // no command, or one the handler does not know: nothing at all
    ensures command.None? || command == Some(Unrecognised) ==> r == Reaction(streaming, None, [], false)
  {
    match command
    case None => Reaction(streaming, None, [], false)
    case Some(k) =>
      match k
      case Start => Reaction(true, None, [StartSending], false)
      case Stop => Reaction(false, None, [StopSending], false)
      case SendHeader => Reaction(streaming, Some(Encoded(ans.header, stamp)), [HeaderSent], false)
      case SendCfg1 =>
        // with None in the slot, `set_time()`/`convert2bytes()` raise AttributeError
        if ans.cfg1.None? then Reaction(streaming, None, [], true)
        else Reaction(streaming, Some(Encoded(ans.cfg1.value, stamp)), [Cfg1Sent], false)
      case SendCfg2 => Reaction(streaming, Some(Encoded(ans.cfg2, stamp)), [Cfg2Sent], false)
      case SendCfg3 =>
        // with the class in the slot, `set_time()`/`convert2bytes()` raise TypeError
        if ans.cfg3 == Cfg3Class then Reaction(streaming, None, [], true)
        else Reaction(streaming, None, [Cfg3Sent], false)
      case Unrecognised => Reaction(streaming, None, [], false)
  }

  /** How a queued item goes on the wire: frames are encoded (and restamped
      iff `stamp`), raw bytes pass unchanged. */
  function Outbound(item: Item, stamp: bool): (w: Wire)
    ensures item.RawItem? ==> w == Raw(item.bytes)
    ensures item.FrameItem? ==> w.Encoded? && w.frame == item.frame && w.restamped == stamp
  {
    match item
    case FrameItem(f) => Encoded(f, stamp)
    case RawItem(b) => Raw(b)
  }

  datatype Phase = Serving | Spinning | Closed

  datatype StepResult = StepResult(streaming: bool, events: seq<Event>, queue: seq<Item>, notes: seq<Note>, phase: Phase)

  /** The write a command's reply makes: one frame, or nothing. */
  function ReplyEvents(reply: Option<Wire>): (e: seq<Event>)
    ensures |e| == (if reply.Some? then 1 else 0)
    ensures forall i :: 0 <= i < |e| ==> e[i] == Sent(reply.value)
  {
    if reply.Some? then [Sent(reply.value)] else []
  }

  /** One iteration of the handler loop, from what the poll heard. */
  function StepSpec(ans: Answers, stamp: bool, delay: real, streaming: bool, heard: Heard, queue: seq<Item>): (r: StepResult)
    // a pass that spins or closes writes nothing and changes neither flag nor queue
    ensures r.phase != Serving ==> r.streaming == streaming && r.queue == queue && r.events == []
    ensures r.phase == Spinning <==> heard.Spin?
    ensures r.phase == Closed <==>
      heard.Broken? || (CommandOf(heard) == Some(SendCfg1) && ans.cfg1.None?) ||
      (CommandOf(heard) == Some(SendCfg3) && ans.cfg3 == Cfg3Class)
  {
    match heard
    case Spin => StepResult(streaming, [], queue, [], Spinning)
    case Broken => StepResult(streaming, [], queue, [ConnectionClosed], Closed)
    case _ =>
      var rx := React(streaming, CommandOf(heard), ans, stamp);
      var heardNotes := HeardNotes(heard);
      if rx.crashed then StepResult(streaming, [], queue, heardNotes + [ConnectionClosed], Closed)
      else if rx.streaming && queue != [] then
        StepResult(rx.streaming, ReplyEvents(rx.reply) + [Paused(delay), Sent(Outbound(queue[0], stamp))],
                   queue[1..], heardNotes + rx.notes + [MessageSent], Serving)
      else StepResult(rx.streaming, ReplyEvents(rx.reply), queue, heardNotes + rx.notes, Serving)
  }

  /** What one iteration promises about the queue and the writes. */
  lemma StepSpecShape(ans: Answers, stamp: bool, delay: real, streaming: bool, heard: Heard, queue: seq<Item>)
    ensures var r := StepSpec(ans, stamp, delay, streaming, heard, queue);
      // at most one item leaves the queue, and it is the head
      (r.queue == queue || (queue != [] && r.queue == queue[1..])) &&
      // it leaves exactly when the (updated) flag is on and the queue is non-empty
      (r.queue != queue <==> r.phase == Serving && r.streaming && queue != []) &&
      // and it is the last thing written, after the pause and after any reply
      (r.queue != queue ==>
        |r.events| >= 2 &&
        r.events[|r.events| - 2..] == [Paused(delay), Sent(Outbound(queue[0], stamp))] &&
        r.events[..|r.events| - 2] == ReplyEvents(React(streaming, CommandOf(heard), ans, stamp).reply)) &&
      (r.queue == queue && r.phase == Serving ==>
        r.events == ReplyEvents(React(streaming, CommandOf(heard), ans, stamp).reply)) &&
      (r.phase == Serving ==> r.streaming == React(streaming, CommandOf(heard), ans, stamp).streaming)
  {
  }

  /** Several iterations; the run ends early when the connection closes or
      the handler spins. */
  function Run(ans: Answers, stamp: bool, delay: real, streaming: bool, heards: seq<Heard>, queue: seq<Item>): StepResult
    decreases heards
  {
    if heards == [] then StepResult(streaming, [], queue, [], Serving)
    else
      var r := StepSpec(ans, stamp, delay, streaming, heards[0], queue);
      if r.phase != Serving then r
      else
        var rest := Run(ans, stamp, delay, r.streaming, heards[1..], r.queue);
        StepResult(rest.streaming, r.events + rest.events, rest.queue, r.notes + rest.notes, rest.phase)
  }

  /** Over any run, what is left of the queue is a suffix of it: items
      leave from the front only, at most one per poll. */
  lemma {:induction false} RunTakesFromFront(ans: Answers, stamp: bool, delay: real, streaming: bool, heards: seq<Heard>, queue: seq<Item>)
    ensures var r := Run(ans, stamp, delay, streaming, heards, queue);
      |r.queue| <= |queue| && r.queue == queue[|queue| - |r.queue|..] && |queue| - |r.queue| <= |heards|
    decreases heards
  {
    if heards != [] {
      var r := StepSpec(ans, stamp, delay, streaming, heards[0], queue);
      StepSpecShape(ans, stamp, delay, streaming, heards[0], queue);
      if r.phase == Serving {
        RunTakesFromFront(ans, stamp, delay, r.streaming, heards[1..], r.queue);
        var rest := Run(ans, stamp, delay, r.streaming, heards[1..], r.queue);
        assert Run(ans, stamp, delay, streaming, heards, queue).queue == rest.queue;
        if r.queue != queue {
          assert r.queue[|r.queue| - |rest.queue|..] == queue[|queue| - |rest.queue|..];
        }
      }
    }
  }

  /** The writes a streaming handler makes for a list of queued items. */
  function Delivered(items: seq<Item>, delay: real, stamp: bool): (e: seq<Event>)
    ensures |e| == 2 * |items|
  {
    if items == [] then []
    else [Paused(delay), Sent(Outbound(items[0], stamp))] + Delivered(items[1..], delay, stamp)
  }

  /** Item `i` is written as the pause then the item, in slots 2i and 2i+1. */
  lemma {:induction false} DeliveredInPairs(items: seq<Item>, delay: real, stamp: bool, i: nat)
    requires i < |items|
    ensures Delivered(items, delay, stamp)[2 * i] == Paused(delay)
    ensures Delivered(items, delay, stamp)[2 * i + 1] == Sent(Outbound(items[i], stamp))
  {
    if i > 0 {
      DeliveredInPairs(items[1..], delay, stamp, i - 1);
    }
  }

  /** A quiet poll only delivers: the next item when streaming, else nothing. */
  lemma QuietPass(ans: Answers, stamp: bool, delay: real, streaming: bool, queue: seq<Item>)
    ensures StepSpec(ans, stamp, delay, streaming, Quiet, queue) ==
      if streaming && queue != [] then
        StepResult(true, [Paused(delay), Sent(Outbound(queue[0], stamp))], queue[1..], [MessageSent], Serving)
      else StepResult(streaming, [], queue, [], Serving)
  {
    assert React(streaming, None, ans, stamp) == Reaction(streaming, None, [], false);
  }

  /** While streaming and quiet, each iteration delivers the next queued
      item: n quiet iterations deliver the first n items in FIFO order. */
  lemma {:induction false} StreamingDrainsInOrder(ans: Answers, stamp: bool, delay: real, heards: seq<Heard>, queue: seq<Item>)
    requires forall i :: 0 <= i < |heards| ==> heards[i] == Quiet
    requires |heards| <= |queue|
    ensures var r := Run(ans, stamp, delay, true, heards, queue);
      r.streaming && r.phase == Serving &&
      r.queue == queue[|heards|..] && r.events == Delivered(queue[..|heards|], delay, stamp)
  {
    if heards != [] {
      var n := |heards|;
      QuietPass(ans, stamp, delay, true, queue);
      var first := [Paused(delay), Sent(Outbound(queue[0], stamp))];
      StreamingDrainsInOrder(ans, stamp, delay, heards[1..], queue[1..]);
      var rest := Run(ans, stamp, delay, true, heards[1..], queue[1..]);
      assert Run(ans, stamp, delay, true, heards, queue) ==
        StepResult(rest.streaming, first + rest.events, rest.queue, [MessageSent] + rest.notes, rest.phase);
      assert queue[1..][n - 1..] == queue[n..];
      assert queue[..n][1..] == queue[1..][..n - 1];
      assert Delivered(queue[..n], delay, stamp) == first + Delivered(queue[1..][..n - 1], delay, stamp);
    }
  }

  /** While idle, quiet iterations write nothing and leave the queue alone. */
  lemma {:induction false} IdleWritesNothing(ans: Answers, stamp: bool, delay: real, heards: seq<Heard>, queue: seq<Item>)
    requires forall i :: 0 <= i < |heards| ==> heards[i] == Quiet
    ensures Run(ans, stamp, delay, false, heards, queue) == StepResult(false, [], queue, [], Serving)
  {
    if heards != [] {
      QuietPass(ans, stamp, delay, false, queue);
      IdleWritesNothing(ans, stamp, delay, heards[1..], queue);
    }
  }

  /** A `start` followed by a `stop` (with quiet polls around them) writes
      exactly the items dequeued in between and leaves the flag off. */
  lemma StartThenStop(ans: Answers, stamp: bool, delay: real, streaming: bool, queue: seq<Item>, id1: int, id2: int)
    requires |queue| >= 1
    ensures var r := Run(ans, stamp, delay, streaming,
                         [Got(Command(id1, Some("start"))), Got(Command(id2, Some("stop")))], queue);
      !r.streaming && r.phase == Serving && r.queue == queue[1..] &&
      r.events == [Paused(delay), Sent(Outbound(queue[0], stamp))]
  {
    var start, stop := Got(Command(id1, Some("start"))), Got(Command(id2, Some("stop")));
    StartPass(ans, stamp, delay, streaming, queue, id1);
    StopPass(ans, stamp, delay, true, queue[1..], id2);
    var r2 := StepSpec(ans, stamp, delay, true, stop, queue[1..]);
    assert Run(ans, stamp, delay, true, [stop], queue[1..]) == StepResult(false, [], queue[1..], r2.notes, Serving) by {
      assert [stop][1..] == [];
    }
    assert [start, stop][1..] == [stop];
  }

  /** A `start` command turns streaming on, and the same pass delivers. */
  lemma StartPass(ans: Answers, stamp: bool, delay: real, streaming: bool, queue: seq<Item>, id: int)
    requires queue != []
    ensures StepSpec(ans, stamp, delay, streaming, Got(Command(id, Some("start"))), queue) ==
      StepResult(true, [Paused(delay), Sent(Outbound(queue[0], stamp))], queue[1..],
                 [ReceivedCommand(Some("start")), StartSending, MessageSent], Serving)
  {
    assert CommandOf(Got(Command(id, Some("start")))) == Some(Start);
  }

  /** A `stop` command turns streaming off before anything is delivered. */
  lemma StopPass(ans: Answers, stamp: bool, delay: real, streaming: bool, queue: seq<Item>, id: int)
    ensures StepSpec(ans, stamp, delay, streaming, Got(Command(id, Some("stop"))), queue) ==
      StepResult(false, [], queue, [ReceivedCommand(Some("stop")), StopSending], Serving)
  {
    assert CommandOf(Got(Command(id, Some("stop")))) == Some(Stop);
  }

  // ---------------------------------------------------------------------
  // The handler process
  // ---------------------------------------------------------------------

  /** One client handler process with the copies of the device state it was
      started with. */
  class Session {
    const conn: Connection
    const queue: ClientBuffer
    const pmuId: int
    const answers: Answers
    const delay: real
    const bufferSize: nat
    const setTimestamp: bool

    var streaming: bool
    var phase: Phase
    /** Set when the device terminates the process. */
    var terminated: bool
    var log: seq<Note>

    constructor (conn: Connection, queue: ClientBuffer, pmuId: int, dataRate: int,
                 cfg1: Option<Frame>, cfg2: Frame, cfg3: Cfg3Slot, header: Frame,
                 bufferSize: nat, setTimestamp: bool)
      ensures this.conn == conn && this.queue == queue && this.pmuId == pmuId
      ensures answers == Answers(header, cfg1, cfg2, cfg3)
      ensures delay == PacingDelay(dataRate)
      ensures this.bufferSize == bufferSize && this.setTimestamp == setTimestamp
      ensures !streaming && phase == Serving && !terminated && log == [ConnectionFrom]
    {
      this.conn := conn;
      this.queue := queue;
      this.pmuId := pmuId;
      answers := Answers(header, cfg1, cfg2, cfg3);
      delay := PacingDelay(dataRate);
      this.bufferSize := bufferSize;
      this.setTimestamp := setTimestamp;
      streaming := false;
      phase := Serving;
      terminated := false;
      log := [ConnectionFrom];
    }

    /** `Process.terminate()`. */
    method Terminate()
      modifies this
      ensures terminated
      ensures streaming == old(streaming) && phase == old(phase) && log == old(log)
    {
      terminated := true;
    }

    /** The poll and the read of one iteration: what was heard. */
    method Hear(readable: bool, decode: seq<byte> -> Decoded) returns (heard: Heard)
      modifies conn
      ensures (heard, conn.inbound) == Listen(readable, old(conn.inbound), bufferSize, decode)
      ensures conn.trace == old(conn.trace) && conn.closed == old(conn.closed)
    {
      heard := Quiet;
      if readable {
        var receipt := ReadFrame(conn, bufferSize);
        match receipt
        case Stalled =>
          heard := Spin;
        case Message(data) =>
          if |data| == FrameSize(data) {
            heard := HeardOf(decode(data));
          } else {
            heard := Incomplete;
          }
      }
    }

    /** The command branch of one iteration; `crashed` when it raised. */
    method Obey(command: Option<Keyword>) returns (crashed: bool)
      modifies this, conn
      ensures var rx := React(old(streaming), command, answers, setTimestamp);
        crashed == rx.crashed && streaming == rx.streaming && log == old(log) + rx.notes &&
        conn.trace == old(conn.trace) + ReplyEvents(rx.reply)
      ensures conn.inbound == old(conn.inbound) && conn.closed == old(conn.closed)
      ensures phase == old(phase) && terminated == old(terminated)
    {
      crashed := false;
      match command
      case None =>
      case Some(k) =>
        match k
        case Start =>
          streaming := true;
          log := log + [StartSending];
        case Stop =>
          log := log + [StopSending];
          streaming := false;
        case SendHeader =>
          conn.SendAll(Encoded(answers.header, setTimestamp));
          log := log + [HeaderSent];
        case SendCfg1 =>
          if answers.cfg1.None? {
            crashed := true;
          } else {
            conn.SendAll(Encoded(answers.cfg1.value, setTimestamp));
            log := log + [Cfg1Sent];
          }
        case SendCfg2 =>
          conn.SendAll(Encoded(answers.cfg2, setTimestamp));
          log := log + [Cfg2Sent];
        case SendCfg3 =>
          // the slot never holds a frame: with the class there, the call to
          // `set_time()` or `convert2bytes()` raises before anything is sent
          if answers.cfg3 == Cfg3Class {
            crashed := true;
          } else {
            log := log + [Cfg3Sent];
          }
        case Unrecognised =>
    }

    /** The measurement branch: dequeue, pause, write. */
    method Deliver()
      modifies this, conn, queue
      ensures streaming && old(queue.items) != [] ==>
        queue.items == old(queue.items)[1..] && log == old(log) + [MessageSent] &&
        conn.trace == old(conn.trace) + [Paused(delay), Sent(Outbound(old(queue.items)[0], setTimestamp))]
      ensures !(streaming && old(queue.items) != []) ==>
        queue.items == old(queue.items) && log == old(log) && conn.trace == old(conn.trace)
      ensures streaming == old(streaming) && phase == old(phase) && terminated == old(terminated)
      ensures conn.inbound == old(conn.inbound) && conn.closed == old(conn.closed)
    {
      if streaming {
        var empty := queue.IsEmpty();
        if !empty {
          var item := queue.Get();
          var w := Outbound(item, setTimestamp);
          conn.Sleep(delay);
          conn.SendAll(w);
          log := log + [MessageSent];
        }
      }
    }

    /** One iteration of the handler loop. */
    method Step(readable: bool, decode: seq<byte> -> Decoded) returns (heard: Heard)
      requires phase == Serving && !terminated
      modifies this, conn, queue
      ensures (heard, conn.inbound) == Listen(readable, old(conn.inbound), bufferSize, decode)
      ensures var r := StepSpec(answers, setTimestamp, delay, old(streaming), heard, old(queue.items));
        streaming == r.streaming && phase == r.phase && queue.items == r.queue &&
        conn.trace == old(conn.trace) + r.events && log == old(log) + r.notes
      ensures conn.closed == (old(conn.closed) || phase == Closed)
      ensures terminated == old(terminated)
    {
      heard := Hear(readable, decode);
      Act(heard);
    }

    /** Everything after the read: command, then measurement. */
    method Act(heard: Heard)
      requires phase == Serving
      modifies this, conn, queue
      ensures var r := StepSpec(answers, setTimestamp, delay, old(streaming), heard, old(queue.items));
        streaming == r.streaming && phase == r.phase && queue.items == r.queue &&
        conn.trace == old(conn.trace) + r.events && log == old(log) + r.notes
      ensures conn.closed == (old(conn.closed) || phase == Closed)
      ensures conn.inbound == old(conn.inbound) && terminated == old(terminated)
    {
      if heard.Spin? {
        phase := Spinning;
        return;
      }
      if heard.Broken? {
        log := log + HeardNotes(heard);
        conn.Close();
        log := log + [ConnectionClosed];
        phase := Closed;
        return;
      }
      Respond(heard);
    }

    /** A pass that heard something other than a spin or a broken read:
        log it, obey its command, then deliver. */
    method Respond(heard: Heard)
      requires phase == Serving && !heard.Spin? && !heard.Broken?
      modifies this, conn, queue
      ensures var rx := React(old(streaming), CommandOf(heard), answers, setTimestamp);
        rx.crashed ==>
          streaming == old(streaming) && phase == Closed && queue.items == old(queue.items) &&
          conn.trace == old(conn.trace) && log == old(log) + (HeardNotes(heard) + [ConnectionClosed])
      ensures var rx := React(old(streaming), CommandOf(heard), answers, setTimestamp);
        !rx.crashed ==>
          streaming == rx.streaming && phase == Serving &&
          if rx.streaming && old(queue.items) != [] then
            queue.items == old(queue.items)[1..] &&
            conn.trace == old(conn.trace) + (ReplyEvents(rx.reply) + [Paused(delay), Sent(Outbound(old(queue.items)[0], setTimestamp))]) &&
            log == old(log) + (HeardNotes(heard) + rx.notes + [MessageSent])
          else
            queue.items == old(queue.items) && conn.trace == old(conn.trace) + ReplyEvents(rx.reply) &&
            log == old(log) + (HeardNotes(heard) + rx.notes)
      ensures conn.closed == (old(conn.closed) || phase == Closed)
      ensures conn.inbound == old(conn.inbound) && terminated == old(terminated)
    {
      log := log + HeardNotes(heard);
      ghost var rx := React(old(streaming), CommandOf(heard), answers, setTimestamp);
      var crashed := Obey(CommandOf(heard));
      if crashed {
        conn.Close();
        log := log + [ConnectionClosed];
        phase := Closed;
        return;
      }
      AppendIsAssociative(old(log), HeardNotes(heard), rx.notes);
      Deliver();
      if rx.streaming && old(queue.items) != [] {
        AppendIsAssociative(old(log), HeardNotes(heard) + rx.notes, [MessageSent]);
        AppendIsAssociative(old(conn.trace), ReplyEvents(rx.reply), [Paused(delay), Sent(Outbound(old(queue.items)[0], setTimestamp))]);
      }
    }
  }
}
