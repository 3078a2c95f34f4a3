/**
 * The device object (`Pmu`): its configuration slots, its header, and the
 * fan-out of frames to one delivery queue per connected client.
 */
module PmuDevice {
  import opened Wrappers
  import opened Frames
  import opened Transport
  import Session

  /** How a call on the device ended.  `AttributeError` is what Python raises
      when a configuration slot holds None where a frame is dereferenced. */
  datatype Outcome = Done | PmuError | AttributeError

  /** What `send` puts into the queues for a value: frames and byte strings
      are accepted, anything else is refused.  A configuration object is
      queued as the value it has at the time of the call. */
  function ItemOf(v: PyValue): (r: Option<Item>)
    reads if v.PyConfig? then {v.obj} else {}
    ensures r.Some? <==> v.PyConfig? || v.PyFrame? || v.PyBytes?
    ensures v.PyConfig? ==> r == Some(FrameItem(Config(v.obj.cls, v.obj.id, v.obj.dataRate)))
    ensures v.PyFrame? ==> r == Some(FrameItem(v.frame))
    ensures v.PyBytes? ==> r == Some(RawItem(v.b))
  {
    match v
    case PyConfig(obj) => Some(FrameItem(obj.Snapshot()))
    case PyFrame(f) => Some(FrameItem(f))
    case PyBytes(b) => Some(RawItem(b))
    case _ => None
  }

  const DefaultHeaderText: string := "Hi! I am tinyPMU!"

  class Pmu {
    /** The built-in configuration frame (created as a CFG-2 and cast to
        CFG-1 in place). */
    const sample: ConfigFrame
    const port: int
    const bufferSize: nat
    const setTimestamp: bool

    /** The configuration slots.  They are public attributes in Python, so
        they may be None; `cfg1` and `cfg2` may refer to the same object. */
    var cfg1: ConfigFrame?
    var cfg2: ConfigFrame?
    var cfg3: Cfg3Slot
    var header: HeaderFrame
    /** `self.data_rate`, which exists only once `set_data_rate` ran. */
    var dataRate: Option<int>
    var stopped: bool
    /** A listening socket is open. */
    var listening: bool
    var clients: seq<Session.Session>
    var clientBuffers: seq<ClientBuffer>

    /** Every connection got a queue of its own. */
    predicate Valid()
      reads this
    {
      forall i, j :: 0 <= i < j < |clientBuffers| ==> clientBuffers[i] != clientBuffers[j]
    }

    constructor (pmuId: int, dataRate: int, port: int, bufferSize: nat, setTimestamp: bool)
      ensures Valid()
      ensures fresh(sample) && sample.cls == ConfigFrame1 && sample.id == pmuId && sample.dataRate == dataRate
      // both views are the one sample object
      ensures cfg1 == sample && cfg2 == sample && cfg3 == NoCfg3
      ensures header == Header(pmuId, DefaultHeaderText)
      ensures this.port == port && this.bufferSize == bufferSize && this.setTimestamp == setTimestamp
      ensures this.dataRate.None? && !stopped && !listening && clients == [] && clientBuffers == []
    {
      var s := new ConfigFrame(ConfigFrame2, pmuId, dataRate);
      s.CastToConfigFrame1();
      sample := s;
      this.port := port;
      this.bufferSize := bufferSize;
      this.setTimestamp := setTimestamp;
      cfg1 := s;
      cfg2 := s;
      cfg3 := NoCfg3;
      header := Header(pmuId, DefaultHeaderText);
      this.dataRate := None;
      stopped := false;
      listening := false;
      clients := [];
      clientBuffers := [];
    }

    /** Put `item` at the end of every client's queue. */
    method Broadcast(item: Item)
      requires Valid()
      modifies set b | b in clientBuffers
      ensures forall i :: 0 <= i < |clientBuffers| ==> clientBuffers[i].items == old(clientBuffers[i].items) + [item]
    {
      for k := 0 to |clientBuffers|
        invariant forall i :: 0 <= i < k ==> clientBuffers[i].items == old(clientBuffers[i].items) + [item]
        invariant forall i :: k <= i < |clientBuffers| ==> clientBuffers[i].items == old(clientBuffers[i].items)
      {
        clientBuffers[k].Put(item);
      }
    }

    /** `send`: queue a frame or raw bytes for every client. */
    method Send(v: PyValue) returns (outcome: Outcome)
      requires Valid()
      modifies set b | b in clientBuffers
      ensures outcome == (if ItemOf(v).Some? then Done else PmuError)
      ensures outcome == Done ==>
        forall i :: 0 <= i < |clientBuffers| ==> clientBuffers[i].items == old(clientBuffers[i].items) + [ItemOf(v).value]
      ensures outcome == PmuError ==>
        forall i :: 0 <= i < |clientBuffers| ==> clientBuffers[i].items == old(clientBuffers[i].items)
    {
      var item := ItemOf(v);
      if item.None? {
        return PmuError;
      }
      Broadcast(item.value);
      outcome := Done;
    }

    /** `send_data`: queue one data frame carrying `cfg2`'s id. */
    method SendData(values: Measurement) returns (outcome: Outcome)
      requires Valid()
      modifies set b | b in clientBuffers
      ensures outcome == (if old(cfg2) == null then AttributeError else Done)
      ensures outcome == Done ==>
        forall i :: 0 <= i < |clientBuffers| ==> clientBuffers[i].items == old(clientBuffers[i].items) + [FrameItem(Data(cfg2.id, values))]
      ensures outcome == AttributeError ==>
        forall i :: 0 <= i < |clientBuffers| ==> clientBuffers[i].items == old(clientBuffers[i].items)
    {
      if cfg2 == null {
        return AttributeError;
      }
      Broadcast(FrameItem(Data(cfg2.id, values)));
      outcome := Done;
    }

    /** `set_id`: write the id into both views, then send `cfg2`. */
    method SetId(pmuId: int) returns (outcome: Outcome)
      requires Valid()
      modifies cfg1, cfg2, set b | b in clientBuffers
      ensures outcome == (if cfg1 == null || cfg2 == null then AttributeError else Done)
      ensures cfg1 != null ==> cfg1.id == pmuId && cfg1.cls == old(cfg1.cls) && cfg1.dataRate == old(cfg1.dataRate)
      ensures cfg1 == null && cfg2 != null ==> unchanged(cfg2)
      ensures cfg1 != null && cfg2 != null ==>
        cfg2.id == pmuId && cfg2.cls == old(cfg2.cls) && cfg2.dataRate == old(cfg2.dataRate)
      ensures forall i :: 0 <= i < |clientBuffers| ==>
        clientBuffers[i].items ==
          old(clientBuffers[i].items) + (if outcome == Done then [FrameItem(Config(cfg2.cls, pmuId, cfg2.dataRate))] else [])
    {
      if cfg1 == null {
        return AttributeError;
      }
      cfg1.SetIdCode(pmuId);
      if cfg2 == null {
        return AttributeError;
      }
      cfg2.SetIdCode(pmuId);
      outcome := Send(PyConfig(cfg2));
    }

    /** `set_data_rate`: write the rate into both views, remember it, then
        send `cfg2`. */
    method SetDataRate(rate: int) returns (outcome: Outcome)
      requires Valid()
      modifies this, cfg1, cfg2, set b | b in clientBuffers
      ensures outcome == (if cfg1 == null || cfg2 == null then AttributeError else Done)
      ensures cfg1 == old(cfg1) && cfg2 == old(cfg2) && cfg3 == old(cfg3) && header == old(header)
      ensures clientBuffers == old(clientBuffers) && clients == old(clients)
      ensures stopped == old(stopped) && listening == old(listening)
      ensures cfg1 != null ==> cfg1.dataRate == rate && cfg1.cls == old(cfg1.cls) && cfg1.id == old(cfg1.id)
      ensures cfg1 == null && cfg2 != null ==> unchanged(cfg2)
      ensures dataRate == (if outcome == Done then Some(rate) else old(dataRate))
      ensures cfg1 != null && cfg2 != null ==>
        cfg2.dataRate == rate && cfg2.cls == old(cfg2.cls) && cfg2.id == old(cfg2.id)
      ensures forall i :: 0 <= i < |clientBuffers| ==>
        clientBuffers[i].items ==
          old(clientBuffers[i].items) + (if outcome == Done then [FrameItem(Config(cfg2.cls, cfg2.id, rate))] else [])
    {
      if cfg1 == null {
        return AttributeError;
      }
      cfg1.SetDataRate(rate);
      if cfg2 == null {
        return AttributeError;
      }
      cfg2.SetDataRate(rate);
      dataRate := Some(rate);
      outcome := Send(PyConfig(cfg2));
    }

    /**
     * `set_configuration`: dispatch on the argument's exact class.  A falsy
     * argument restores the built-in sample in both views; a CFG-1 replaces
     * only `cfg1`; a CFG-2 replaces `cfg2` and, when `cfg1` is empty, also
     * becomes `cfg1` and is cast to CFG-1 (so `cfg2` is then a CFG-1 too);
     * a CFG-3 stores the class, not the frame.  The closing log line reads
     * `cfg2`, and raises when it is None, after the change.
     */
    method SetConfiguration(config: PyValue) returns (outcome: Outcome)
      modifies this, sample, if config.PyConfig? then {config.obj} else {}
      ensures header == old(header) && dataRate == old(dataRate) && stopped == old(stopped) && listening == old(listening)
      ensures clients == old(clients) && clientBuffers == old(clientBuffers)
      ensures config.Falsy() ==>
        cfg1 == sample && cfg2 == sample && cfg3 == NoCfg3 &&
        sample.cls == ConfigFrame1 && sample.id == old(sample.id) && sample.dataRate == old(sample.dataRate)
      ensures config.PyConfig? && old(config.obj.cls) == ConfigFrame1 ==>
        cfg1 == config.obj && cfg2 == old(cfg2) && cfg3 == old(cfg3) && unchanged(config.obj)
      ensures config.PyConfig? && old(config.obj.cls) == ConfigFrame2 && old(cfg1) != null ==>
        cfg2 == config.obj && cfg1 == old(cfg1) && cfg3 == old(cfg3) && unchanged(config.obj)
      ensures config.PyConfig? && old(config.obj.cls) == ConfigFrame2 && old(cfg1) == null ==>
        cfg1 == config.obj && cfg2 == config.obj && cfg3 == old(cfg3) &&
        config.obj.cls == ConfigFrame1 && config.obj.id == old(config.obj.id) &&
        config.obj.dataRate == old(config.obj.dataRate)
      ensures config.PyConfig? && old(config.obj.cls) == ConfigFrame3 ==>
        cfg1 == old(cfg1) && cfg2 == old(cfg2) && cfg3 == Cfg3Class && unchanged(config.obj)
      ensures !config.Falsy() && !config.PyConfig? ==>
        outcome == PmuError && cfg1 == old(cfg1) && cfg2 == old(cfg2) && cfg3 == old(cfg3)
      ensures (!config.Falsy() && !config.PyConfig?) || (config.PyConfig? && old(config.obj.cls) != ConfigFrame2) ==>
        unchanged(sample)
      ensures config.Falsy() || config.PyConfig? ==> outcome == (if cfg2 == null then AttributeError else Done)
    {
      if config.Falsy() {
        cfg1 := sample;
        sample.CastToConfigFrame1();
        cfg2 := sample;
        cfg3 := NoCfg3;
      } else if config.PyConfig? && config.obj.cls == ConfigFrame1 {
        cfg1 := config.obj;
      } else if config.PyConfig? && config.obj.cls == ConfigFrame2 {
        cfg2 := config.obj;
        if cfg1 == null {
          cfg1 := config.obj;
          config.obj.CastToConfigFrame1();
        }
      } else if config.PyConfig? && config.obj.cls == ConfigFrame3 {
        cfg3 := Cfg3Class;
      } else {
        return PmuError;
      }
      outcome := if cfg2 == null then AttributeError else Done;
    }

    /** `set_header`: None keeps the header; a header frame replaces it; a
        string becomes a header frame with `cfg2`'s id; anything else is
        refused. */
    method SetHeader(h: PyValue) returns (outcome: Outcome)
      modifies this
      ensures cfg1 == old(cfg1) && cfg2 == old(cfg2) && cfg3 == old(cfg3) && dataRate == old(dataRate)
      ensures stopped == old(stopped) && listening == old(listening)
      ensures clients == old(clients) && clientBuffers == old(clientBuffers)
      ensures h.PyNone? ==> outcome == Done && header == old(header)
      ensures h.PyFrame? && h.frame.Header? ==> outcome == Done && header == h.frame
      ensures h.PyStr? && cfg2 != null ==> outcome == Done && header == Header(cfg2.id, h.s)
      ensures h.PyStr? && cfg2 == null ==> outcome == AttributeError && header == old(header)
      ensures !(h.PyNone? || h.PyStr? || (h.PyFrame? && h.frame.Header?)) ==>
        outcome == PmuError && header == old(header)
    {
      match h
      case PyNone =>
        outcome := Done;
      case PyFrame(f) =>
        if f.Header? {
          header := f;
          outcome := Done;
        } else {
          outcome := PmuError;
        }
      case PyStr(s) =>
        if cfg2 == null {
          outcome := AttributeError;
        } else {
          header := Header(cfg2.id, s);
          outcome := Done;
        }
      case _ =>
        outcome := PmuError;
    }

    /** `run`: refuse to start with every configuration slot empty; otherwise
        clear the stop flag and listen. */
    method Run() returns (outcome: Outcome)
      modifies this
      ensures outcome == PmuError <==> old(cfg1) == null && old(cfg2) == null && old(cfg3) == NoCfg3
      ensures outcome != PmuError ==> outcome == Done && !stopped && listening
      ensures outcome == PmuError ==> stopped == old(stopped) && listening == old(listening)
      ensures cfg1 == old(cfg1) && cfg2 == old(cfg2) && cfg3 == old(cfg3) && header == old(header)
      ensures dataRate == old(dataRate) && clients == old(clients) && clientBuffers == old(clientBuffers)
    {
      if cfg1 == null && cfg2 == null && cfg3 == NoCfg3 {
        return PmuError;
      }
      stopped := false;
      listening := true;
      outcome := Done;
    }

    /** The `cfg1` slot as the handler receives it. */
    function Cfg1Copy(): (r: Option<Frame>)
      reads this, cfg1
      ensures r.None? <==> cfg1 == null
      ensures cfg1 != null ==> r == Some(Config(cfg1.cls, cfg1.id, cfg1.dataRate))
    {
      if cfg1 == null then None else Some(cfg1.Snapshot())
    }

    /** One accepted connection: a fresh queue, and a handler started with
        the values the configuration slots and the header have now.  The
        acceptor has already read `cfg2`'s id for its log line, so `cfg2`
        holds a frame here; `cfg1` may be empty. */
    method Accept(conn: Connection)
      requires Valid() && cfg2 != null
      modifies this
      ensures cfg1 == old(cfg1) && cfg2 == old(cfg2) && cfg3 == old(cfg3) && header == old(header)
      ensures dataRate == old(dataRate) && stopped == old(stopped) && listening == old(listening)
      ensures Valid()
      ensures |clientBuffers| == |old(clientBuffers)| + 1 && clientBuffers[..|old(clientBuffers)|] == old(clientBuffers)
      ensures |clients| == |old(clients)| + 1 && clients[..|old(clients)|] == old(clients)
      ensures fresh(clientBuffers[|clientBuffers| - 1]) && clientBuffers[|clientBuffers| - 1].items == []
      ensures var s := clients[|clients| - 1];
        fresh(s) && s.conn == conn && s.queue == clientBuffers[|clientBuffers| - 1] &&
        s.pmuId == cfg2.id && s.delay == Session.PacingDelay(cfg2.dataRate) &&
        s.answers == Session.Answers(header, Cfg1Copy(), cfg2.Snapshot(), cfg3) &&
        s.bufferSize == bufferSize && s.setTimestamp == setTimestamp &&
        !s.streaming && s.phase == Session.Serving && !s.terminated
    {
      var buffer := new ClientBuffer();
      clientBuffers := clientBuffers + [buffer];
      var process := new Session.Session(conn, buffer, cfg2.id, cfg2.dataRate,
                                         Cfg1Copy(), cfg2.Snapshot(), cfg3, header,
                                         bufferSize, setTimestamp);
      clients := clients + [process];
    }

    /** `acceptor`: accept connections until stopped or the listening socket
        fails; `arrivals` are the connections that come in, in order.  With
        `cfg2` empty, the log line at the top of the loop raises
        AttributeError, which ends the thread before any connection. */
    method Acceptor(arrivals: seq<Connection>) returns (outcome: Outcome)
      requires Valid()
      modifies this
      ensures Valid()
      ensures outcome == (if !old(stopped) && old(cfg2) == null then AttributeError else Done)
      ensures var n := if old(stopped) || old(cfg2) == null then 0 else |arrivals|;
        |clientBuffers| == |old(clientBuffers)| + n && clientBuffers[..|old(clientBuffers)|] == old(clientBuffers) &&
        |clients| == |old(clients)| + n && clients[..|old(clients)|] == old(clients) &&
        forall i :: 0 <= i < n ==>
          clients[|old(clients)| + i].conn == arrivals[i] &&
          clients[|old(clients)| + i].queue == clientBuffers[|old(clientBuffers)| + i]
      ensures forall i :: |old(clientBuffers)| <= i < |clientBuffers| ==> fresh(clientBuffers[i]) && clientBuffers[i].items == []
      ensures cfg1 == old(cfg1) && cfg2 == old(cfg2) && cfg3 == old(cfg3) && header == old(header)
      ensures dataRate == old(dataRate) && stopped == old(stopped) && listening == old(listening)
    {
      if !stopped && cfg2 == null {
        assert clients[..|clients|] == clients && clientBuffers[..|clientBuffers|] == clientBuffers;
        return AttributeError;
      }
      var k := 0;
      while !stopped && k < |arrivals|
        invariant 0 <= k <= |arrivals| && (old(stopped) ==> k == 0)
        invariant Valid() && (!stopped ==> cfg2 != null)
        invariant |clientBuffers| == |old(clientBuffers)| + k && clientBuffers[..|old(clientBuffers)|] == old(clientBuffers)
        invariant |clients| == |old(clients)| + k && clients[..|old(clients)|] == old(clients)
        invariant forall i :: 0 <= i < k ==>
          clients[|old(clients)| + i].conn == arrivals[i] &&
          clients[|old(clients)| + i].queue == clientBuffers[|old(clientBuffers)| + i]
        invariant forall i :: |old(clientBuffers)| <= i < |clientBuffers| ==> fresh(clientBuffers[i]) && clientBuffers[i].items == []
        invariant cfg1 == old(cfg1) && cfg2 == old(cfg2) && cfg3 == old(cfg3) && header == old(header)
        invariant dataRate == old(dataRate) && stopped == old(stopped) && listening == old(listening)
      {
        ghost var before := clients;
        Accept(arrivals[k]);
        assert forall i :: 0 <= i < |before| ==> clients[i] == before[i];
        k := k + 1;
      }
      assert k == if old(stopped) || old(cfg2) == null then 0 else |arrivals|;
      outcome := Done;
    }

    /** `stop`: set the stop flag, close the listening socket, terminate
        every handler and forget them.  The queues are kept. */
    method Stop()
      modifies this, set c | c in clients
      ensures stopped && !listening && clients == []
      ensures forall c :: c in old(clients) ==> c.terminated
      ensures clientBuffers == old(clientBuffers)
      ensures cfg1 == old(cfg1) && cfg2 == old(cfg2) && cfg3 == old(cfg3) && header == old(header) && dataRate == old(dataRate)
    {
      stopped := true;
      listening := false;
      for k := 0 to |clients|
        invariant clients == old(clients) && clientBuffers == old(clientBuffers) && stopped && !listening
        invariant cfg1 == old(cfg1) && cfg2 == old(cfg2) && cfg3 == old(cfg3) && header == old(header) && dataRate == old(dataRate)
        invariant forall i :: 0 <= i < k ==> clients[i].terminated
      {
        clients[k].Terminate();
      }
      clients := [];
    }
  }
}
