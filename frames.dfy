/**
 * The frame vocabulary shared by the device (`Pmu`) and its per-client
 * sessions.  The binary codec itself is not part of this model: frames are
 * kept opaque apart from their kind, their device id and, for configuration
 * frames, their reporting rate.
 */
module Frames {
  import opened Wrappers

  newtype byte = x: int | 0 <= x < 256


  /** The runtime class of a configuration frame.  The Python code reassigns
      it in place (`cfg.__class__ = ConfigFrame1`), so it is a field, not a
      fixed type. */
  datatype ConfigClass = ConfigFrame1 | ConfigFrame2 | ConfigFrame3

  /** Measurement payload of a data frame (phasor pairs, analog values,
      digital status words, frequency deviation and its rate of change). */
  datatype Measurement = Measurement(
    phasors: seq<(int, int)>,
    analog: seq<int>,
    digital: seq<int>,
    freq: int,
    dfreq: int)

  /** A frame as a value: what a queue holds after pickling and what a
      session process works on. */
  datatype Frame =
    | Config(cls: ConfigClass, id: int, dataRate: int)
    | Header(id: int, text: string)
    | Data(id: int, values: Measurement)
    | Command(id: int, command: Option<string>)

  type HeaderFrame = f: Frame | f.Header? witness Header(0, "")

  /** A frame that is not a configuration frame; configuration frames are
      objects (`ConfigFrame`) in the device. */
  type PlainFrame = f: Frame | !f.Config? witness Header(0, "")

  /** A configuration frame object.  Several device slots may refer to the
      same object, and a write through one slot is seen through the others. */
  class ConfigFrame {
    var cls: ConfigClass
    var id: int
    var dataRate: int

    constructor (cls: ConfigClass, id: int, dataRate: int)
      ensures this.cls == cls && this.id == id && this.dataRate == dataRate
    {
      this.cls := cls;
      this.id := id;
      this.dataRate := dataRate;
    }

    /** The value a pickled copy of this object carries. */
    function Snapshot(): (f: Frame)
      reads this
      ensures f.Config? && f.cls == cls && f.id == id && f.dataRate == dataRate
    {
      Config(cls, id, dataRate)
    }

    method SetIdCode(id: int)
      modifies this
      ensures this.id == id && cls == old(cls) && dataRate == old(dataRate)
    {
      this.id := id;
    }

    method SetDataRate(rate: int)
      modifies this
      ensures dataRate == rate && cls == old(cls) && id == old(id)
    {
      dataRate := rate;
    }

    method CastToConfigFrame1()
      modifies this
      ensures cls == ConfigFrame1 && id == old(id) && dataRate == old(dataRate)
    {
      cls := ConfigFrame1;
    }
  }

  /** What the third configuration slot can hold: the device only ever stores
      None or the class `ConfigFrame3` itself (not an instance). */
  datatype Cfg3Slot = NoCfg3 | Cfg3Class

  /** An item in a client's delivery queue: a frame or raw bytes. */
  datatype Item = FrameItem(frame: Frame) | RawItem(bytes: seq<byte>)

  /** An argument of dynamic type handed to the device by its caller. */
  datatype PyValue =
    | PyNone
    | PyFalsy                      // another falsy value: 0, False, [], {}
    | PyConfig(obj: ConfigFrame)   // a configuration frame object
    | PyFrame(frame: PlainFrame)   // a header, data or command frame
    | PyStr(s: string)
    | PyBytes(b: seq<byte>)
    | PyOther                      // any other truthy value
  {
    /** Python truthiness (frames are truthy). */
    predicate Falsy() {
      PyNone? || PyFalsy? || (PyStr? && s == []) || (PyBytes? && b == [])
    }
  }

  /** What one `sendall` puts on the wire: an encoded frame, stamped with the
      current time or not, or raw bytes passed through unchanged. */
  datatype Wire = Encoded(frame: Frame, restamped: bool) | Raw(bytes: seq<byte>)
}
