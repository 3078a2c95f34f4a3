/**
 * The deterministic parts of a running simulation (`PMUSimulator` and
 * `PMULoggerAdapter`): the channel layout of the configuration frame it
 * builds, the per-PMU log list it trims, and the connection-state notices
 * of its send loop.  Random measurement values, sleeping and the threads
 * are not part of this model.
 */
module Simulator {
  import opened Wrappers
  import opened ImportRules

  // ---------------------------------------------------------------------
  // Decimal numerals (Python's `str` of a non-negative `int`)
  // ---------------------------------------------------------------------

  predicate IsDigit(c: char) {
    '0' <= c <= '9'
  }

  function DigitChar(d: nat): (c: char)
    requires d < 10
    ensures IsDigit(c) && c as int - '0' as int == d
  {
    ['0', '1', '2', '3', '4', '5', '6', '7', '8', '9'][d]
  }

  /** The decimal numeral of `n`, without leading zeros. */
  function NatToString(n: nat): (s: string)
    ensures |s| >= 1
    ensures forall i :: 0 <= i < |s| ==> IsDigit(s[i])
    ensures s[0] == '0' ==> n == 0
  {
    if n < 10 then [DigitChar(n)] else NatToString(n / 10) + [DigitChar(n % 10)]
  }

  /** The value of a string of decimal digits. */
  function DigitsValue(s: string): nat
    requires forall i :: 0 <= i < |s| ==> IsDigit(s[i])
  {
    if s == [] then 0
    else
      var last := s[|s| - 1];
      assert IsDigit(last);
      DigitsValue(s[..|s| - 1]) * 10 + (last as int - '0' as int)
  }

  /** Reading a numeral back gives the number it was written from. */
  lemma {:induction false} NatToStringRoundTrip(n: nat)
    ensures DigitsValue(NatToString(n)) == n
  {
    var s := NatToString(n);
    if n >= 10 {
      NatToStringRoundTrip(n / 10);
      assert s[..|s| - 1] == NatToString(n / 10);
    }
  }

  /** Different numbers have different numerals. */
  lemma NatToStringInjective(m: nat, n: nat)
    ensures NatToString(m) == NatToString(n) ==> m == n
  {
    NatToStringRoundTrip(m);
    NatToStringRoundTrip(n);
  }

  // ---------------------------------------------------------------------
  // Channel layout of the configuration frame built by `start`
  // ---------------------------------------------------------------------

  /** `int(300000.0 / 32768 * 100000)` and `int(15000.0 / 32768 * 100000)`:
      both quotients are exact in binary floating point, so truncating the
      exact rational gives the same integers. */
  const VoltageFactor: int := ((300000.0 / 32768.0) * 100000.0).Floor
  const CurrentFactor: int := ((15000.0 / 32768.0) * 100000.0).Floor

  /** How many times `range(n)` runs: none for a negative count. */
  function Count(n: int): nat {
    if n < 0 then 0 else n
  }

  /** `int(n / 2)`: true division, then truncation toward zero. */
  function HalfTruncated(n: int): (h: int)
    ensures n >= 0 ==> h == n / 2
    ensures n < 0 ==> h == -((-n) / 2)
  {
    if n >= 0 then n / 2 else -((-n) / 2)
  }

  /** A channel of the frame: phasor `n`, analog `n`, or bit `b` of digital
      status word `w`, all counted from 1. */
  datatype Channel =
    | PhasorChannel(n: nat)
    | AnalogChannel(n: nat)
    | DigitalChannel(w: nat, b: nat)

  /** The name `start` gives a channel. */
  function Label(c: Channel): string {
    match c
    case PhasorChannel(n) => "Phasor" + NatToString(n)
    case AnalogChannel(n) => "Analog" + NatToString(n)
    case DigitalChannel(w, b) => "Digital" + NatToString(w) + "_" + NatToString(b)
  }

  /** The scaling of phasor `i`: the first half are voltages. */
  function PhasorUnit(phasorNum: int, i: nat): (int, string) {
    if i < HalfTruncated(phasorNum) then (VoltageFactor, "v") else (CurrentFactor, "i")
  }

  /** Channel `i` of the list `start` builds: the phasors, then the analogs,
      then sixteen digital channels per status word. */
  function ChannelAt(phasorNum: int, analogNum: int, i: nat): Channel {
    if i < Count(phasorNum) then PhasorChannel(i + 1)
    else if i < Count(phasorNum) + Count(analogNum) then AnalogChannel(i - Count(phasorNum) + 1)
    else
      var k := i - Count(phasorNum) - Count(analogNum);
      DigitalChannel(k / 16 + 1, k % 16 + 1)
  }

  /** The channel arguments given to `ConfigFrame2`. */
  datatype Layout = Layout(
    names: seq<string>,
    phasorUnits: seq<(int, string)>,
    analogUnits: seq<(int, string)>,
    digitalMasks: seq<(int, int)>)

  function LayoutOf(phasorNum: int, analogNum: int, digitalNum: int): (l: Layout)
    ensures |l.phasorUnits| == Count(phasorNum)
    ensures |l.analogUnits| == Count(analogNum)
    ensures |l.digitalMasks| == Count(digitalNum)
    ensures |l.names| == |l.phasorUnits| + |l.analogUnits| + 16 * |l.digitalMasks|
  {
    var p, a, d := Count(phasorNum), Count(analogNum), Count(16 * digitalNum);
    Layout(
      seq(p + a + d, i requires 0 <= i => Label(ChannelAt(phasorNum, analogNum, i))),
      seq(p, i requires 0 <= i => PhasorUnit(phasorNum, i)),
      seq(a, _ => (1, "pow")),
      seq(Count(digitalNum), _ => (0x0000, 0xffff)))
  }

  /** Names come in three runs: phasors, analogs, then sixteen digital
      channels per status word. */
  lemma ChannelNamesInOrder(phasorNum: int, analogNum: int, digitalNum: int)
    ensures var l, p, a := LayoutOf(phasorNum, analogNum, digitalNum), Count(phasorNum), Count(analogNum);
      (forall i :: 0 <= i < p ==> l.names[i] == Label(PhasorChannel(i + 1))) &&
      (forall i :: p <= i < p + a ==> l.names[i] == Label(AnalogChannel(i - p + 1))) &&
      (forall i :: p + a <= i < |l.names| ==>
        l.names[i] == Label(DigitalChannel((i - p - a) / 16 + 1, (i - p - a) % 16 + 1)))
  {
    forall i | 0 <= i < |LayoutOf(phasorNum, analogNum, digitalNum).names|
      ensures LayoutOf(phasorNum, analogNum, digitalNum).names[i] == Label(ChannelAt(phasorNum, analogNum, i))
    {
      NameIsLabel(phasorNum, analogNum, digitalNum, i);
    }
  }

  lemma NameIsLabel(phasorNum: int, analogNum: int, digitalNum: int, i: nat)
    requires i < |LayoutOf(phasorNum, analogNum, digitalNum).names|
    ensures LayoutOf(phasorNum, analogNum, digitalNum).names[i] == Label(ChannelAt(phasorNum, analogNum, i))
  {
  }

  /** The first `int(phasor_num / 2)` phasors are voltages scaled by 915527,
      the rest currents scaled by 45776; with an odd count the extra one is
      a current. */
  lemma {:induction false} PhasorUnitsSplit(phasorNum: int)
    requires phasorNum >= 0
    ensures var units := LayoutOf(phasorNum, 0, 0).phasorUnits;
      (forall i :: 0 <= i < phasorNum / 2 ==> units[i] == (915527, "v")) &&
      (forall i :: phasorNum / 2 <= i < phasorNum ==> units[i] == (45776, "i")) &&
      phasorNum - phasorNum / 2 - phasorNum / 2 in {0, 1}
  {
    assert VoltageFactor == 915527 && CurrentFactor == 45776;
  }

  /** Every analog channel is a power value with factor 1, and every
      digital word has all sixteen bits valid with normal state 0. */
  lemma AnalogAndDigitalUnits(analogNum: int, digitalNum: int)
    ensures var l := LayoutOf(0, analogNum, digitalNum);
      (forall i :: 0 <= i < |l.analogUnits| ==> l.analogUnits[i] == (1, "pow")) &&
      (forall i :: 0 <= i < |l.digitalMasks| ==> l.digitalMasks[i] == (0x0000, 0xffff))
  {
  }

  /** Prefixing with the same text keeps strings apart. */
  lemma SamePrefix(p: string, x: string, y: string)
    ensures p + x == p + y ==> x == y
  {
    if p + x == p + y {
      assert x == (p + x)[|p|..];
      assert y == (p + y)[|p|..];
    }
  }

  /** A numeral ends at the first `_`. */
  lemma MarkSplits(x: string, y: string, u: string, v: string)
    requires forall i :: 0 <= i < |x| ==> IsDigit(x[i])
    requires forall i :: 0 <= i < |u| ==> IsDigit(u[i])
    ensures x + "_" + y == u + "_" + v ==> x == u && y == v
  {
    var l, r := x + "_" + y, u + "_" + v;
    if |x| < |u| {
      assert l[|x|] == '_' && r[|x|] == u[|x|];
    } else if |u| < |x| {
      assert r[|u|] == '_' && l[|u|] == x[|u|];
    } else if l == r {
      assert x == l[..|x|] && u == r[..|x|];
      assert y == l[|x| + 1..] && v == r[|x| + 1..];
    }
  }

  /** Different positions of the list hold different channels. */
  lemma ChannelsDiffer(phasorNum: int, analogNum: int, i: nat, j: nat)
    requires i < j
    ensures ChannelAt(phasorNum, analogNum, i) != ChannelAt(phasorNum, analogNum, j)
  {
    var p, a := Count(phasorNum), Count(analogNum);
    if i >= p + a {
      var k, l := i - p - a, j - p - a;
      assert k == 16 * (k / 16) + k % 16;
      assert l == 16 * (l / 16) + l % 16;
    }
  }

  /** The first letter of a channel's name. */
  function Initial(c: Channel): char {
    match c
    case PhasorChannel(_) => 'P'
    case AnalogChannel(_) => 'A'
    case DigitalChannel(_, _) => 'D'
  }

  lemma LabelStartsWithInitial(c: Channel)
    ensures |Label(c)| > 0 && Label(c)[0] == Initial(c)
  {
  }

  /** Different channels get different names. */
  lemma LabelsDiffer(c: Channel, d: Channel)
    requires c != d
    ensures Label(c) != Label(d)
  {
    if c.PhasorChannel? && d.PhasorChannel? {
      SamePrefix("Phasor", NatToString(c.n), NatToString(d.n));
      NatToStringInjective(c.n, d.n);
    } else if c.AnalogChannel? && d.AnalogChannel? {
      SamePrefix("Analog", NatToString(c.n), NatToString(d.n));
      NatToStringInjective(c.n, d.n);
    } else if c.DigitalChannel? && d.DigitalChannel? {
      DigitalLabelsDiffer(c.w, c.b, d.w, d.b);
    } else {
      LabelStartsWithInitial(c);
      LabelStartsWithInitial(d);
    }
  }

  lemma DigitalLabelsDiffer(w: nat, b: nat, w': nat, b': nat)
    requires (w, b) != (w', b')
    ensures Label(DigitalChannel(w, b)) != Label(DigitalChannel(w', b'))
  {
    var x, y := NatToString(w), NatToString(b);
    var u, v := NatToString(w'), NatToString(b');
    assert Label(DigitalChannel(w, b)) == "Digital" + (x + "_" + y);
    assert Label(DigitalChannel(w', b')) == "Digital" + (u + "_" + v);
    SamePrefix("Digital", x + "_" + y, u + "_" + v);
    MarkSplits(x, y, u, v);
    NatToStringInjective(w, w');
    NatToStringInjective(b, b');
  }

  /** No two channels of the frame share a name. */
  lemma ChannelNamesDistinct(phasorNum: int, analogNum: int, digitalNum: int)
    ensures NoRepeats(LayoutOf(phasorNum, analogNum, digitalNum).names)
  {
    var names := LayoutOf(phasorNum, analogNum, digitalNum).names;
    forall i, j | 0 <= i < j < |names|
      ensures names[i] != names[j]
    {
      ChannelsDiffer(phasorNum, analogNum, i, j);
      LabelsDiffer(ChannelAt(phasorNum, analogNum, i), ChannelAt(phasorNum, analogNum, j));
    }
  }

  // ---------------------------------------------------------------------
  // Per-PMU log lists
  // ---------------------------------------------------------------------

  /** How many lines each PMU's log list keeps. */
  const MaxLogLines: nat := 2000

  /** A log list after one more line: the newest `MaxLogLines` lines. */
  function Retained(lines: seq<string>, msg: string): (r: seq<string>)
    ensures |r| == if |lines| + 1 < MaxLogLines then |lines| + 1 else MaxLogLines
    ensures r[|r| - 1] == msg
    ensures r == (lines + [msg])[|lines| + 1 - |r|..]
  {
    var all := lines + [msg];
    if |all| > MaxLogLines then all[|all| - MaxLogLines..] else all
  }

  /** Lines logged one by one, each trimmed as it goes. */
  function RetainedAll(lines: seq<string>, msgs: seq<string>): seq<string>
    decreases msgs
  {
    if msgs == [] then lines
    else RetainedAll(Retained(lines, msgs[0]), msgs[1..])
  }

  /** The newest `MaxLogLines` lines of `all`, or all of them when fewer. */
  function Newest(all: seq<string>): (r: seq<string>)
    ensures |r| == if |all| < MaxLogLines then |all| else MaxLogLines
    ensures r == all[|all| - |r|..]
  {
    if |all| > MaxLogLines then all[|all| - MaxLogLines..] else all
  }

  /** However many lines are logged, the list holds the newest ones, up to
      `MaxLogLines` of them, as if trimmed once at the end. */
  lemma {:induction false} RetainedAllKeepsNewest(lines: seq<string>, msgs: seq<string>)
    requires |lines| <= MaxLogLines
    decreases msgs
    ensures RetainedAll(lines, msgs) == Newest(lines + msgs)
  {
    if msgs != [] {
      var head := lines + [msgs[0]];
      assert Retained(lines, msgs[0]) == Newest(head);
      RetainedAllKeepsNewest(Newest(head), msgs[1..]);
      NewestOfNewest(head, msgs[1..]);
      AppendFirst(lines, msgs);
    }
  }

  /** Trimming early loses nothing that trimming late would keep. */
  lemma NewestOfNewest(a: seq<string>, b: seq<string>)
    ensures Newest(Newest(a) + b) == Newest(a + b)
  {
    var x := a + b;
    var k := |a| - |Newest(a)|;
    var y := Newest(a) + b;
    assert y == x[k..] by {
      SuffixThenAppend(a, k, b);
    }
    if |y| > MaxLogLines {
      assert Newest(y) == y[|y| - MaxLogLines..];
      SuffixOfSuffix(x, k, |y| - MaxLogLines);
    } else if k > 0 {
      assert |b| == 0;
      assert y == Newest(a) && x == a;
    }
  }

  lemma AppendFirst<T>(a: seq<T>, b: seq<T>)
    requires b != []
    ensures (a + [b[0]]) + b[1..] == a + b
  {
    assert b == [b[0]] + b[1..];
  }

  lemma SuffixThenAppend<T>(a: seq<T>, k: nat, b: seq<T>)
    requires k <= |a|
    ensures a[k..] + b == (a + b)[k..]
  {
  }

  lemma SuffixOfSuffix<T>(a: seq<T>, k: nat, j: nat)
    requires k + j <= |a|
    ensures a[k..][j..] == a[k + j..]
  {
  }

  /** The global `pmu_logs` dictionary. */
  class LogBook {
    var logs: map<string, seq<string>>

    predicate Valid()
      reads this
    {
      forall pmu :: pmu in logs ==> |logs[pmu]| <= MaxLogLines
    }

    constructor()
      ensures Valid() && logs == map[]
    {
      logs := map[];
    }

    function Lines(pmu: string): seq<string>
      reads this
    {
      if pmu in logs then logs[pmu] else []
    }

    /** `PMULoggerAdapter.process`: append to the PMU's list (created on
        first use), then delete all but its last `MaxLogLines` lines. */
    method Record(pmu: string, msg: string)
      modifies this
      ensures logs == old(logs)[pmu := Retained(old(Lines(pmu)), msg)]
      ensures old(Valid()) ==> Valid()
    {
      var lines := if pmu in logs then logs[pmu] else [];
      lines := lines + [msg];
      if |lines| > MaxLogLines {
        lines := lines[|lines| - MaxLogLines..];
      }
      logs := logs[pmu := lines];
    }

    /** `clear_logs` for the PMU on display: nothing is cleared when no PMU
        is selected, or when the selected name is empty (and so falsy). */
    method Clear(current: Option<string>)
      modifies this
      ensures current.None? || current.value == "" ==> logs == old(logs)
      ensures current.Some? && current.value != "" ==> logs == old(logs)[current.value := []]
      ensures old(Valid()) ==> Valid()
    {
      if current.Some? && current.value != "" {
        logs := logs[current.value := []];
      }
    }
  }

  // ---------------------------------------------------------------------
  // Connection-state notices of the send loop
  // ---------------------------------------------------------------------

  datatype Notice = Connected | Waiting

  function NoticeFor(hasClients: bool): Notice {
    if hasClients then Connected else Waiting
  }

  /** The notices for a run of loop passes, where `seen[k]` says whether the
      device had clients on pass `k`: one on the first pass and one on each
      pass that sees a change. */
  function Notices(seen: seq<bool>): (ns: seq<Notice>)
    ensures |ns| <= |seen|
    ensures seen != [] ==> ns != [] && ns[0] == NoticeFor(seen[0]) && ns[|ns| - 1] == NoticeFor(seen[|seen| - 1])
  {
    if seen == [] then []
    else
      var n := |seen| - 1;
      Notices(seen[..n]) + if n == 0 || seen[n] != seen[n - 1] then [NoticeFor(seen[n])] else []
  }

  predicate Alternating(ns: seq<Notice>) {
    forall k :: 0 <= k < |ns| - 1 ==> ns[k] != ns[k + 1]
  }

  /** Consecutive notices always differ: the loop never repeats itself. */
  lemma {:induction false} NoticesAlternate(seen: seq<bool>)
    ensures Alternating(Notices(seen))
  {
    if seen != [] {
      var n := |seen| - 1;
      NoticesAlternate(seen[..n]);
      var front := Notices(seen[..n]);
      if n > 0 && seen[n] != seen[n - 1] {
        assert seen[..n][n - 1] == seen[n - 1];
        var last := NoticeFor(seen[n]);
        assert front[|front| - 1] != last;
        var ns := front + [last];
        forall k | 0 <= k < |ns| - 1
          ensures ns[k] != ns[k + 1]
        {
          if k + 1 < |front| {
            assert ns[k] == front[k] && ns[k + 1] == front[k + 1];
            assert front[k] != front[k + 1];
          } else {
            assert k == |front| - 1;
            assert ns[k] == front[|front| - 1] && ns[k + 1] == last;
          }
        }
        assert Notices(seen) == ns;
      } else if n > 0 {
        assert Notices(seen) == front;
      }
    }
  }

  /** A run where the client state never changes gives one notice. */
  lemma {:induction false} SteadyRunNoticesOnce(seen: seq<bool>, hasClients: bool)
    requires seen != []
    requires forall k :: 0 <= k < |seen| ==> seen[k] == hasClients
    ensures Notices(seen) == [NoticeFor(hasClients)]
  {
    var n := |seen| - 1;
    if n > 0 {
      SteadyRunNoticesOnce(seen[..n], hasClients);
      assert seen[n - 1] == seen[n];
    }
  }

  datatype LinkState = Unknown | AwaitingClients | ClientsConnected

  function StateFor(hasClients: bool): LinkState {
    if hasClients then ClientsConnected else AwaitingClients
  }

  function CountTrue(seen: seq<bool>): (c: nat)
    ensures c <= |seen|
  {
    if seen == [] then 0 else CountTrue(seen[..|seen| - 1]) + if seen[|seen| - 1] then 1 else 0
  }

  /** The `while` loop of `start`, one iteration per element of `seen`:
      it logs a notice only when `connection_state` changes, and sends one
      data frame on each pass that sees a client. */
  method WatchConnection(seen: seq<bool>) returns (notices: seq<Notice>, framesSent: nat)
    ensures notices == Notices(seen)
    ensures framesSent == CountTrue(seen)
  {
    var state := Unknown;
    notices, framesSent := [], 0;
    for i := 0 to |seen|
      invariant notices == Notices(seen[..i])
      invariant framesSent == CountTrue(seen[..i])
      invariant state == if i == 0 then Unknown else StateFor(seen[i - 1])
    {
      assert seen[..i + 1][..i] == seen[..i];
      if seen[i] {
        if state != ClientsConnected {
          notices := notices + [Connected];
          state := ClientsConnected;
        }
        framesSent := framesSent + 1;
      } else {
        if state != AwaitingClients {
          notices := notices + [Waiting];
          state := AwaitingClients;
        }
      }
    }
    assert seen[..|seen|] == seen;
  }
}
