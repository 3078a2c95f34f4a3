/**
 * Device profiles as the simulator's front end keeps them: a profile is a
 * JSON object of settings, checked by `validate_config` and completed from
 * the built-in defaults when profiles are loaded.
 */
module Profiles {
  import opened Wrappers

  /** A JSON value as `json.load` returns it.  Lists and objects are kept
      opaque (their JSON text); they are never hashable in Python. */
  datatype JsonValue =
    | JNull
    | JBool(b: bool)
    | JInt(i: int)
    | JFloat(r: real)
    | JStr(s: string)
    | JCompound(text: string)

  type Config = map<string, JsonValue>

  /** The number a value stands for in a Python numeric comparison: `bool`
      is a subclass of `int`, and ints and floats compare by value. */
  function NumberOf(v: JsonValue): (n: Option<real>)
    ensures n.Some? <==> v.JBool? || v.JInt? || v.JFloat?
  {
    match v
    case JBool(b) => Some(if b then 1.0 else 0.0)
    case JInt(i) => Some(i as real)
    case JFloat(r) => Some(r)
    case _ => None
  }


  /** What Python's `==` and `hash` see of a value: numbers by their value
      (`True == 1 == 1.0`), everything else by kind and contents. */
  datatype HashKey = NumberKey(r: real) | TextKey(s: string) | NullKey | CompoundKey(text: string)

  function KeyFor(v: JsonValue): (k: HashKey)
    ensures k.NumberKey? <==> NumberOf(v).Some?
    ensures k.NumberKey? ==> NumberOf(v) == Some(k.r)
  {
    match v
    case JNull => NullKey
    case JStr(s) => TextKey(s)
    case JCompound(t) => CompoundKey(t)
    case _ => NumberKey(NumberOf(v).value)
  }

  /** Python `==` between two JSON values. */
  predicate PyEq(a: JsonValue, b: JsonValue)
  {
    KeyFor(a) == KeyFor(b)
  }

  /** Equality across numeric kinds, as the import checks rely on. */
  lemma NumbersCompareByValue(i: int)
    ensures PyEq(JInt(i), JFloat(i as real))
    ensures PyEq(JInt(1), JBool(true)) && PyEq(JInt(0), JBool(false))
    ensures !PyEq(JInt(i), JStr("0")) && !PyEq(JNull, JInt(0))
  {
  }

  /** Values that can go into a Python `set`. */
  predicate Hashable(v: JsonValue)
  {
    !v.JCompound?
  }

  /** `isinstance(v, int)`, which holds for booleans too. */
  predicate IsInt(v: JsonValue)
  {
    v.JInt? || v.JBool?
  }

  function IntOf(v: JsonValue): (n: int)
    requires IsInt(v)
    ensures NumberOf(v) == Some(n as real)
  {
    if v.JInt? then v.i else if v.b then 1 else 0
  }

  // ---------------------------------------------------------------------
  // Defaults
  // ---------------------------------------------------------------------

  /** The built-in profile's entries, in their declared order (the order
      of the add form's fields). */
  const DefaultItems: seq<(string, JsonValue)> := [
    ("pmu_id", JInt(780)),
    ("data_rate", JInt(5)),
    ("port", JInt(4712)),
    ("ip", JStr("127.0.0.1")),
    ("method", JStr("tcp")),
    ("buffer", JInt(2048)),
    ("log_level", JStr("INFO")),
    ("station_name", JStr("NSU Station")),
    ("time_base", JInt(1000000)),
    ("phasor_num", JInt(14)),
    ("analog_num", JInt(33)),
    ("digital_num", JInt(11)),
    ("nominal_freq", JInt(50)),
    ("cfg_count", JInt(1))]

  /** The built-in profile. */
  const DefaultConfig: Config := map[
    "pmu_id" := JInt(780),
    "data_rate" := JInt(5),
    "port" := JInt(4712),
    "ip" := JStr("127.0.0.1"),
    "method" := JStr("tcp"),
    "buffer" := JInt(2048),
    "log_level" := JStr("INFO"),
    "station_name" := JStr("NSU Station"),
    "time_base" := JInt(1000000),
    "phasor_num" := JInt(14),
    "analog_num" := JInt(33),
    "digital_num" := JInt(11),
    "nominal_freq" := JInt(50),
    "cfg_count" := JInt(1)]

  /** Each ordered entry is an entry of the built-in profile, each key
      comes once, and every default is a text or a whole number. */
  lemma DefaultItemsAreDefaults()
    ensures forall i :: 0 <= i < |DefaultItems| ==> DefaultItems[i].0 in DefaultConfig && DefaultConfig[DefaultItems[i].0] == DefaultItems[i].1
    ensures forall i, j :: 0 <= i < j < |DefaultItems| ==> DefaultItems[i].0 != DefaultItems[j].0
    ensures forall i :: 0 <= i < |DefaultItems| ==> DefaultItems[i].1.JStr? || DefaultItems[i].1.JInt?
  {
  }

  /** Every key of the built-in profile has its ordered entry. */
  lemma DefaultItemsCoverDefaults()
    ensures forall k :: k in DefaultConfig ==> exists i :: 0 <= i < |DefaultItems| && DefaultItems[i].0 == k
  {
    assert DefaultItems[0].0 == "pmu_id" && DefaultItems[1].0 == "data_rate" && DefaultItems[2].0 == "port";
    assert DefaultItems[3].0 == "ip" && DefaultItems[4].0 == "method" && DefaultItems[5].0 == "buffer";
    assert DefaultItems[6].0 == "log_level" && DefaultItems[7].0 == "station_name" && DefaultItems[8].0 == "time_base";
    assert DefaultItems[9].0 == "phasor_num" && DefaultItems[10].0 == "analog_num" && DefaultItems[11].0 == "digital_num";
    assert DefaultItems[12].0 == "nominal_freq" && DefaultItems[13].0 == "cfg_count";
  }

  /** A loaded profile: the defaults, overridden key by key by the file. */
  function Merged(c: Config): (m: Config)
    ensures m.Keys == DefaultConfig.Keys + c.Keys
    ensures forall k :: k in c ==> m[k] == c[k]
    ensures forall k :: k in DefaultConfig && k !in c ==> m[k] == DefaultConfig[k]
  {
    DefaultConfig + c
  }

  /** Merging twice changes nothing more. */
  lemma MergeIsIdempotent(c: Config)
    ensures Merged(Merged(c)) == Merged(c)
  {
    assert Merged(Merged(c)).Keys == Merged(c).Keys;
  }

  // ---------------------------------------------------------------------
  // Validation
  // ---------------------------------------------------------------------

  /** The four settings `validate_config` checks, in the order it checks them. */
  datatype Setting = PmuId | DataRate | Port | PhasorNum

  function KeyOf(s: Setting): string
  {
    match s
    case PmuId => "pmu_id"
    case DataRate => "data_rate"
    case Port => "port"
    case PhasorNum => "phasor_num"
  }

  /** The position of a setting in the order `validate_config` checks them. */
  function Rank(s: Setting): nat
  {
    match s
    case PmuId => 0
    case DataRate => 1
    case Port => 2
    case PhasorNum => 3
  }

  /** The range each setting must fall in.  An id of 0 is accepted. */
  predicate InRange(s: Setting, n: int)
  {
    match s
    case PmuId => n >= 0
    case DataRate => n > 0
    case Port => 0 <= n <= 65535
    case PhasorNum => n >= 0
  }

  /** One setting is present, an integer, and in range. */
  predicate Acceptable(c: Config, s: Setting)
  {
    KeyOf(s) in c && IsInt(c[KeyOf(s)]) && InRange(s, IntOf(c[KeyOf(s)]))
  }

  /** What `validate_config` does: nothing, a `KeyError` for a missing key,
      or a `ValueError` naming the setting. */
  datatype Check = Passed | MissingKey(key: string) | Rejected(setting: Setting)

  /** The check of one setting on its own. */
  function CheckOne(c: Config, s: Setting): (r: Check)
    ensures r == Passed <==> Acceptable(c, s)
    ensures r == MissingKey(KeyOf(s)) <==> KeyOf(s) !in c
    ensures r != Passed ==> r == MissingKey(KeyOf(s)) || r == Rejected(s)
  {
    if KeyOf(s) !in c then MissingKey(KeyOf(s))
    else if IsInt(c[KeyOf(s)]) && InRange(s, IntOf(c[KeyOf(s)])) then Passed
    else Rejected(s)
  }

  /** `validate_config`: the first failing check, in the order id, rate,
      port, phasor count. */
  function ValidateConfig(c: Config): (r: Check)
    ensures r == Passed <==> Acceptable(c, PmuId) && Acceptable(c, DataRate) && Acceptable(c, Port) && Acceptable(c, PhasorNum)
    ensures r != Passed ==>
      exists s :: !Acceptable(c, s) && r == CheckOne(c, s) && forall t :: Rank(t) < Rank(s) ==> Acceptable(c, t)
    ensures r.Rejected? ==> KeyOf(r.setting) in c && !Acceptable(c, r.setting)
    ensures r.MissingKey? ==> r.key !in c
  {
    var id := CheckOne(c, PmuId);
    if id != Passed then id
    else
      var rate := CheckOne(c, DataRate);
      if rate != Passed then rate
      else
        var port := CheckOne(c, Port);
        if port != Passed then port
        else CheckOne(c, PhasorNum)
  }

  /** Validation raises `KeyError` only for a profile missing a checked key. */
  lemma CompleteProfilesDoNotRaise(c: Config)
    requires forall s: Setting :: KeyOf(s) in c
    ensures !ValidateConfig(c).MissingKey?
  {
    assert KeyOf(PmuId) in c && KeyOf(DataRate) in c && KeyOf(Port) in c && KeyOf(PhasorNum) in c;
  }

  /** The built-in profile passes validation. */
  lemma DefaultConfigPasses()
    ensures ValidateConfig(DefaultConfig) == Passed
  {
    assert Acceptable(DefaultConfig, PmuId);
  }

  /** Id 0 is accepted, although the message speaks of a positive id, and
      so is `true` (a Python `bool` is an `int`); a negative id is not. */
  lemma IdZeroPasses(c: Config)
    requires ValidateConfig(c) == Passed
    ensures ValidateConfig(c["pmu_id" := JInt(0)]) == Passed
    ensures ValidateConfig(c["pmu_id" := JBool(true)]) == Passed
    ensures ValidateConfig(c["pmu_id" := JInt(-1)]) == Rejected(PmuId)
  {
    OnlyIdChanged(c, JInt(0));
    OnlyIdChanged(c, JBool(true));
    OnlyIdChanged(c, JInt(-1));
  }

  /** Replacing the id leaves the other three checks as they were. */
  lemma OnlyIdChanged(c: Config, v: JsonValue)
    ensures forall s :: s != PmuId ==> (Acceptable(c["pmu_id" := v], s) <==> Acceptable(c, s))
  {
    forall s | s != PmuId
      ensures Acceptable(c["pmu_id" := v], s) <==> Acceptable(c, s)
    {
      assert KeyOf(s) != "pmu_id";
    }
  }

  /** Only the four checked keys matter: two profiles that agree on them
      get the same verdict. */
  lemma ValidationReadsFourKeys(c: Config, d: Config)
    requires forall s: Setting :: (KeyOf(s) in c <==> KeyOf(s) in d)
    requires forall s: Setting :: KeyOf(s) in c ==> c[KeyOf(s)] == d[KeyOf(s)]
    ensures ValidateConfig(c) == ValidateConfig(d)
  {
    assert CheckOne(c, PmuId) == CheckOne(d, PmuId);
    assert CheckOne(c, DataRate) == CheckOne(d, DataRate);
    assert CheckOne(c, Port) == CheckOne(d, Port);
    assert CheckOne(c, PhasorNum) == CheckOne(d, PhasorNum);
  }

  // ---------------------------------------------------------------------
  // Text entry
  // ---------------------------------------------------------------------

  /** Python's `str.isspace` for one character. */
  predicate IsSpace(c: char)
  {
    ('\t' <= c <= '\r') || ('\U{1c}' <= c <= ' ') || c == '\U{85}' || c == '\U{a0}' || c == '\U{1680}'
    || ('\U{2000}' <= c <= '\U{200a}') || c == '\U{2028}' || c == '\U{2029}' || c == '\U{202f}'
    || c == '\U{205f}' || c == '\U{3000}'
  }

  function StripLeft(s: string): (r: string)
    ensures |r| <= |s| && r == s[|s| - |r|..]
    ensures forall k :: 0 <= k < |s| - |r| ==> IsSpace(s[k])
    ensures r != [] ==> !IsSpace(r[0])
  {
    if s != [] && IsSpace(s[0]) then StripLeft(s[1..]) else s
  }

  function StripRight(s: string): (r: string)
    ensures |r| <= |s| && r == s[..|r|]
    ensures forall k :: |r| <= k < |s| ==> IsSpace(s[k])
    ensures r != [] ==> !IsSpace(r[|r| - 1])
  {
    if s != [] && IsSpace(s[|s| - 1]) then StripRight(s[..|s| - 1]) else s
  }

  /** `str.strip()`: the text between the leading and trailing white space. */
  function Strip(s: string): (r: string)
    ensures |r| <= |s|
    ensures r != [] ==> !IsSpace(r[0]) && !IsSpace(r[|r| - 1])
  {
    StripRight(StripLeft(s))
  }

  /** What stripping removes: white space only, and only at the ends. */
  lemma StripCutsEnds(s: string)
    ensures exists i, j ::
      (0 <= i <= j <= |s| && Strip(s) == s[i..j] &&
       (forall k :: 0 <= k < i ==> IsSpace(s[k])) && (forall k :: j <= k < |s| ==> IsSpace(s[k])))
  {
    var l := StripLeft(s);
    var r := StripRight(l);
    var i, j := |s| - |l|, |s| - |l| + |r|;
    assert r == s[i..j] by {
      PrefixOfSuffix(s, i, |r|);
    }
    assert forall k :: j <= k < |s| ==> IsSpace(s[k]) by {
      forall k | j <= k < |s|
        ensures IsSpace(s[k])
      {
        assert s[k] == l[k - i];
      }
    }
    assert Strip(s) == s[i..j];
  }

  lemma PrefixOfSuffix(s: string, i: nat, m: nat)
    requires i + m <= |s|
    ensures s[i..][..m] == s[i..i + m]
  {
  }

  /** A field is blank exactly when it holds nothing but white space. */
  lemma {:induction false} StripIsEmptyIffBlank(s: string)
    ensures Strip(s) == [] <==> forall k :: 0 <= k < |s| ==> IsSpace(s[k])
  {
    var l := StripLeft(s);
    if exists k :: 0 <= k < |s| && !IsSpace(s[k]) {
      assert l != [];
    }
  }
}
