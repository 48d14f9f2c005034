/**
 * The telemetry dashboard's logic without its drawing (DisplayUI_UTFT.h
 * and the pure parts of DisplayUI_UTFT.cpp): the telemetry snapshot, the
 * initial cache, the battery gauge, and the field-by-field comparison that
 * decides which rows a render redraws and what the cache holds afterwards.
 */
module DashboardModel {
  import opened Wrappers
  import opened CInts
  import opened CStrings

  /** A `const char*`: the address identifies it (0 is null); the text is what it points to now. */
  datatype StrPtr = StrPtr(addr: nat, text: string)

  /** The address of the "" literal the cache starts with (any non-null address). */
  const EmptyLiteral := StrPtr(1, "")

  /** UIData: one telemetry snapshot. bandChar NUL means no band. */
  datatype UIData = UIData(
    voltage: real,
    cells: u8,
    vrx: StrPtr,
    freq: u16,
    bandChar: char,
    channel: u8,
    rssi: i16,
    control: StrPtr,
    recording: bool,
    vBypass: bool,
    azimuth: i16)

  /** The initialiser of `last_`: sentinels the first real snapshot differs from. */
  const InitialCache := UIData(-999.0, 4, EmptyLiteral, 0, NUL, 0, -999, EmptyLiteral, false, false, -999)

  // ------------------------------------------------------------- helpers

  /** imap: linear map of [inMin, inMax] onto [outMin, outMax] in C int arithmetic. */
  function Imap(x: int, inMin: int, inMax: int, outMin: int, outMax: int): (r: int)
    requires inMin != inMax
    ensures x == inMin ==> r == outMin
    ensures x == inMax ==> r == outMax
  {
    if x == inMax then
      TruncDivExact(outMax - outMin, inMax - inMin);
      assert (x - inMin) * (outMax - outMin) == (outMax - outMin) * (inMax - inMin);
      TruncDiv((x - inMin) * (outMax - outMin), inMax - inMin) + outMin
    else
      TruncDiv((x - inMin) * (outMax - outMin), inMax - inMin) + outMin
  }

  /** On an increasing map, inputs inside the input range land inside the output range. */
  lemma ImapInRange(x: int, inMin: int, inMax: int, outMin: int, outMax: int)
    requires inMin < inMax && outMin <= outMax
    ensures inMin <= x <= inMax ==> outMin <= Imap(x, inMin, inMax, outMin, outMax) <= outMax
  {
    if x < inMin || inMax < x {
      return;
    }
    QuotientInRange(x - inMin, outMax - outMin, inMax - inMin);
  }

  /** a*b/d lies in [0, b] when 0 <= a <= d. */
  lemma QuotientInRange(a: int, b: int, d: int)
    requires 0 <= a <= d && 0 < d && 0 <= b
    ensures 0 <= TruncDiv(a * b, d) <= b
  {
    var p := a * b;
    assert 0 <= p <= d * b by {
      MulMono(0, a, b);
      MulMono(a, d, b);
    }
    var q := TruncDiv(p, d);
    assert 0 <= p - q * d < d;
    QuotientBounds(p, d, b, q);
  }

  lemma QuotientBounds(p: int, d: int, b: int, q: int)
    requires d > 0 && 0 <= p <= b * d && 0 <= p - q * d < d
    ensures 0 <= q <= b
  {
    if q < 0 {
      MulMono(q, -1, d);
    } else if q > b {
      MulMono(b + 1, q, d);
    }
  }

  lemma MulMono(a: int, b: int, c: nat)
    requires a <= b
    ensures a * c <= b * c
  {
    assert b * c - a * c == (b - a) * c;
  }

  /** clamp(v, lo, hi): raise v to lo, then lower it to hi. */
  method Clamp(v: int, lo: int, hi: int) returns (r: int)
    ensures lo <= hi ==> lo <= r <= hi
    ensures lo <= v <= hi ==> r == v
    ensures lo > hi ==> r == hi
    ensures lo <= hi && v < lo ==> r == lo
    ensures v > hi ==> r == hi
  {
    r := v;
    if r < lo {
      r := lo;
    }
    if r > hi {
      r := hi;
    }
  }

  /** voltageToPercent over exact reals: 3.30 V per cell is 0 %, 4.20 V is 100 %, rounded half up. */
  function VoltageToPercent(v: real, cells: u8): (p: int)
    ensures 0 <= p <= 100
  {
    var n := if cells == 0 then 1 else cells;
    var perCell := v / n as real;
    var raw := (perCell - 3.30) / (4.20 - 3.30) * 100.0;
    var clamped := if raw < 0.0 then 0.0 else if raw > 100.0 then 100.0 else raw;
    (clamped + 0.5).Floor
  }

  /** A full 4S pack (16.8 V) is 100 %; 12.0 V on 4S is 0 %. */
  lemma PercentExamples()
    ensures VoltageToPercent(16.8, 4) == 100
    ensures VoltageToPercent(12.0, 4) == 0
  {
  }

  /** The voltage test of render, `fabs(new - old) > 0.05`, on exact reals. */
  predicate VoltageMoved(a: real, b: real)
    ensures VoltageMoved(a, b) <==> a > b + 0.05 || b > a + 0.05
  {
    (if a < b then b - a else a - b) > 0.05
  }

  // ------------------------------------------------------- battery gauge

  /** The battery icon's inner width (iw). */
  const IconW: int := 46

  datatype Level = Ok | Warn | Bad

  /** The fill colour tier. */
  function BatteryLevel(percent: int): (l: Level)
    ensures l == Ok <==> percent >= 60
    ensures l == Warn <==> 25 <= percent < 60
    ensures l == Bad <==> percent < 25
  {
    if percent >= 60 then Ok else if percent >= 25 then Warn else Bad
  }

  /** The icon's fill: its width and colour, and the width of the background rest if one is drawn. */
  datatype Gauge = Gauge(fillW: int, level: Level, rest: Option<int>)

  function BatteryGauge(percent: int): (g: Gauge)
    ensures 0 <= percent <= 100 ==> 0 <= g.fillW <= IconW
    ensures percent == 0 ==> g.fillW == 0
    ensures percent == 100 ==> g.fillW == IconW
    ensures g.level == BatteryLevel(percent)
    ensures g.rest.Some? <==> g.fillW < IconW
    ensures g.rest.Some? ==> g.fillW + g.rest.value == IconW
  {
    var fillW := Imap(percent, 0, 100, 0, IconW);
    ImapInRange(percent, 0, 100, 0, IconW);
    Gauge(fillW, BatteryLevel(percent), if fillW < IconW then Some(IconW - fillW) else None)
  }

  // --------------------------------------------------------------- rows

  /** The RSSI row's warning style. */
  predicate PoorSignal(rssi: int)
  {
    rssi < 30
  }

  /** 29 dB is poor and 30 dB is not; a weaker signal than a poor one is poor too. */
  lemma RssiThreshold(weaker: int, stronger: int)
    requires weaker <= stronger
    ensures PoorSignal(29) && !PoorSignal(30)
    ensures PoorSignal(stronger) ==> PoorSignal(weaker)
  {
  }

  /** A value cell: plain text, or a number whose formatting is left to snprintf. */
  datatype Cell = Text(s: string) | Number(n: int, suffix: string)

  /** What render draws. Rows are numbered as in drawLabelValueRow. */
  datatype DashDraw =
    | Background(w: int, h: int)
    | Frame(headerW: int, labels: seq<string>)
    | Header(headerW: int, batteryX: int, voltage: real, percent: int, gauge: Gauge)
    | Row(index: int, caption: string, value: Cell, highlight: bool)
    | Compass(degrees: int)

  /** The captions drawFrame puts on the seven row cards. */
  const FrameLabels: seq<string> := ["VIDEO", "BAND", "CHANNEL", "RSSI", "CONTROL", "REC", "V_BYPASS"]

  /** drawFrame on a w x h screen: the full background, then the header card (w - 16 wide),
      the seven captioned row cards and the compass card. */
  function FrameDraws(w: int, h: int): (r: seq<DashDraw>)
    ensures |r| == 2 && r[0] == Background(w, h)
    ensures r[1].Frame? && |r[1].labels| == 7
  {
    [Background(w, h), Frame(w - 16, FrameLabels)]
  }

  /** The band cell: the letter, or "--" when there is none. */
  function BandCell(c: char): (cell: Cell)
    ensures c == NUL ==> cell == Text("--")
    ensures c != NUL ==> cell == Text([c])
  {
    if c != NUL then Text([c]) else Text("--")
  }

  /** The control cell: the pointed-to text, or "--" for a null pointer. */
  function ControlCell(p: StrPtr): (cell: Cell)
    ensures p.addr == 0 ==> cell == Text("--")
    ensures p.addr != 0 ==> cell == Text(p.text)
  {
    if p.addr != 0 then Text(p.text) else Text("--")
  }

  /** Whether the header (voltage and battery) needs redrawing. */
  predicate HeaderStale(last: UIData, d: UIData)
    ensures d.cells != last.cells ==> HeaderStale(last, d)
    ensures HeaderStale(last, d) ==> d.cells != last.cells || d.voltage != last.voltage
    ensures d.cells == last.cells && last.voltage - 0.05 <= d.voltage <= last.voltage + 0.05 ==> !HeaderStale(last, d)
  {
    VoltageMoved(d.voltage, last.voltage) || d.cells != last.cells
  }

  /** drawHeaderBar on a screen w pixels wide: the header card, then the battery box 180 pixels from the right. */
  function HeaderBar(w: int, voltage: real, percent: int): (h: DashDraw)
    ensures h.Header? && h.headerW == w - 16 && h.batteryX + 180 == w
    ensures h.voltage == voltage && h.percent == percent
    ensures 0 <= percent <= 100 ==> 0 <= h.gauge.fillW <= IconW
    ensures h.gauge == BatteryGauge(percent)
  {
    Header(w - 16, w - 180, voltage, percent, BatteryGauge(percent))
  }

  /** The header render draws for a snapshot: drawHeaderBar with the snapshot's voltage and percent. */
  function HeaderDraw(w: int, d: UIData): (h: DashDraw)
    ensures h.Header? && h.headerW == w - 16 && h.batteryX + 180 == w && h.voltage == d.voltage
    ensures h.percent == VoltageToPercent(d.voltage, d.cells) && 0 <= h.percent <= 100
    ensures h.gauge == BatteryGauge(h.percent)
  {
    HeaderBar(w, d.voltage, VoltageToPercent(d.voltage, d.cells))
  }

  /** The REC cell: "REC" while recording, "STOP" otherwise. */
  function RecCell(on: bool): (cell: Cell)
    ensures cell.Text? && (cell.s == "REC" <==> on) && (cell.s == "STOP" <==> !on)
  {
    Text(if on then "REC" else "STOP")
  }

  /** The V_BYPASS cell: "ON" or "OFF". */
  function BypassCell(on: bool): (cell: Cell)
    ensures cell.Text? && (cell.s == "ON" <==> on) && (cell.s == "OFF" <==> !on)
  {
    Text(if on then "ON" else "OFF")
  }

  /** The cache after render: every compared field now holds the snapshot's value. */
  function Cached(last: UIData, d: UIData): (c: UIData)
    ensures c.freq == d.freq && c.bandChar == d.bandChar && c.channel == d.channel && c.rssi == d.rssi
    ensures c.recording == d.recording && c.vBypass == d.vBypass && c.azimuth == d.azimuth
    ensures c.cells == d.cells && c.control.addr == d.control.addr
    ensures c.vrx == last.vrx
    ensures c.voltage == if HeaderStale(last, d) then d.voltage else last.voltage
  {
    UIData(
      if HeaderStale(last, d) then d.voltage else last.voltage,
      d.cells, last.vrx, d.freq, d.bandChar, d.channel, d.rssi,
      if d.control.addr != last.control.addr then d.control else last.control,
      d.recording, d.vBypass, d.azimuth)
  }

  /** One comparison of render: whether it fires, and what it draws when it does. */
  datatype Check = Check(changed: bool, draw: DashDraw)

  /** The header block: voltage and battery, redrawn when the header is stale. */
  function HeaderCheck(w: int, last: UIData, d: UIData): (c: Check)
    ensures c.changed <==> HeaderStale(last, d)
    ensures c.draw == HeaderDraw(w, d)
  {
    Check(HeaderStale(last, d), HeaderDraw(w, d))
  }

  /** Row 0, "VRX": the frequency in MHz. */
  function FreqCheck(last: UIData, d: UIData): (c: Check)
    ensures c.changed <==> d.freq != last.freq
    ensures c.draw.Row? && c.draw.index == 0 && c.draw.value == Number(d.freq, " MHz") && !c.draw.highlight
  {
    Check(d.freq != last.freq, Row(0, "VRX", Number(d.freq, " MHz"), false))
  }

  /** Row 2, "BAND": the band letter. */
  function BandCheck(last: UIData, d: UIData): (c: Check)
    ensures c.changed <==> d.bandChar != last.bandChar
    ensures c.draw.Row? && c.draw.index == 2 && c.draw.value == BandCell(d.bandChar) && !c.draw.highlight
  {
    Check(d.bandChar != last.bandChar, Row(2, "BAND", BandCell(d.bandChar), false))
  }

  /** Row 3, "CHANNEL": the channel number. */
  function ChannelCheck(last: UIData, d: UIData): (c: Check)
    ensures c.changed <==> d.channel != last.channel
    ensures c.draw.Row? && c.draw.index == 3 && c.draw.value == Number(d.channel, "") && !c.draw.highlight
  {
    Check(d.channel != last.channel, Row(3, "CHANNEL", Number(d.channel, ""), false))
  }

  /** Row 4, "RSSI": the signal in dB, in the warning style when poor. */
  function RssiCheck(last: UIData, d: UIData): (c: Check)
    ensures c.changed <==> d.rssi != last.rssi
    ensures c.draw.Row? && c.draw.index == 4 && c.draw.value == Number(d.rssi, " dB")
    ensures c.draw.highlight <==> d.rssi < 30
  {
    Check(d.rssi != last.rssi, Row(4, "RSSI", Number(d.rssi, " dB"), PoorSignal(d.rssi)))
  }

  /** Row 5, "CONTROL": the control string, compared as a pointer. */
  function ControlCheck(last: UIData, d: UIData): (c: Check)
    ensures c.changed <==> d.control.addr != last.control.addr
    ensures c.draw.Row? && c.draw.index == 5 && c.draw.value == ControlCell(d.control) && !c.draw.highlight
  {
    Check(d.control.addr != last.control.addr, Row(5, "CONTROL", ControlCell(d.control), false))
  }

  /** Row 6, "REC": highlighted while recording. */
  function RecCheck(last: UIData, d: UIData): (c: Check)
    ensures c.changed <==> d.recording != last.recording
    ensures c.draw.Row? && c.draw.index == 6 && c.draw.value == RecCell(d.recording)
    ensures c.draw.highlight <==> d.recording
  {
    Check(d.recording != last.recording, Row(6, "REC", RecCell(d.recording), d.recording))
  }

  /** Row 6 again, "V_BYPASS": highlighted while the bypass is on. */
  function BypassCheck(last: UIData, d: UIData): (c: Check)
    ensures c.changed <==> d.vBypass != last.vBypass
    ensures c.draw.Row? && c.draw.index == 6 && c.draw.value == BypassCell(d.vBypass)
    ensures c.draw.highlight <==> d.vBypass
  {
    Check(d.vBypass != last.vBypass, Row(6, "V_BYPASS", BypassCell(d.vBypass), d.vBypass))
  }

  /** The compass: the azimuth in degrees. */
  function AzimuthCheck(last: UIData, d: UIData): (c: Check)
    ensures c.changed <==> d.azimuth != last.azimuth
    ensures c.draw == Compass(d.azimuth)
  {
    Check(d.azimuth != last.azimuth, Compass(d.azimuth))
  }

  /** render's comparisons against the cache, in the order it makes them; the dead second
      frequency check (row 1) is left out, as its field already equals the cache by then. */
  function RenderChecks(w: int, last: UIData, d: UIData): (cs: seq<Check>)
    ensures |cs| == 9
    ensures cs[0].draw.Header? && cs[8].draw.Compass?
    ensures forall k :: 1 <= k < 8 ==> cs[k].draw.Row? && cs[k].draw.index != 1
    ensures forall k :: 1 <= k < 7 ==> cs[k].draw.index <= cs[k + 1].draw.index
    ensures forall k :: 0 <= k < |cs| ==> Partial(cs[k].draw)
  {
    [ HeaderCheck(w, last, d), FreqCheck(last, d), BandCheck(last, d), ChannelCheck(last, d),
      RssiCheck(last, d), ControlCheck(last, d), RecCheck(last, d), BypassCheck(last, d),
      AzimuthCheck(last, d) ]
  }

  /** The draw of one check: its block if it fires, nothing otherwise. */
  function Draws(c: Check): seq<DashDraw>
  {
    if c.changed then [c.draw] else []
  }

  /** The draws of the checks that fire, in order. */
  function Fired(cs: seq<Check>): (r: seq<DashDraw>)
    ensures |r| <= |cs|
    decreases |cs|
  {
    if cs == [] then [] else Draws(cs[0]) + Fired(cs[1..])
  }

  /** What render draws, in order: one entry per compared field that differs from the cache. */
  function Redraws(w: int, last: UIData, d: UIData): (r: seq<DashDraw>)
    ensures |r| <= 9
    ensures forall k :: 0 <= k < |r| ==> Partial(r[k])
  {
    var cs := RenderChecks(w, last, d);
    FiredPartial(cs);
    Fired(cs)
  }

  /** A draw that updates one part of the screen: never the background or the frame. */
  predicate Partial(x: DashDraw)
  {
    !x.Background? && !x.Frame?
  }

  /** Checks whose draws are all partial fire only partial draws. */
  lemma {:induction false} FiredPartial(cs: seq<Check>)
    requires forall k :: 0 <= k < |cs| ==> Partial(cs[k].draw)
    ensures forall k :: 0 <= k < |Fired(cs)| ==> Partial(Fired(cs)[k])
    decreases |cs|
  {
    if cs != [] {
      assert forall k :: 0 <= k < |cs[1..]| ==> cs[1..][k] == cs[k + 1];
      FiredPartial(cs[1..]);
    }
  }

  /** The draw log after one check: extended by the check's draw when it fires. */
  function Extend(log: seq<DashDraw>, c: Check): seq<DashDraw>
  {
    if c.changed then log + [c.draw] else log
  }

  /** The draw log after render, made check by check in render's order, starting from `log`. */
  function RenderLog(w: int, log: seq<DashDraw>, last: UIData, d: UIData): seq<DashDraw>
  {
    var header := Extend(log, HeaderCheck(w, last, d));
    var rows := Extend(Extend(Extend(Extend(header, FreqCheck(last, d)), BandCheck(last, d)), ChannelCheck(last, d)), RssiCheck(last, d));
    var flags := Extend(Extend(Extend(rows, ControlCheck(last, d)), RecCheck(last, d)), BypassCheck(last, d));
    Extend(flags, AzimuthCheck(last, d))
  }

  /** One more check logged after a prefix of checks extends the prefix's draws by its own. */
  lemma ExtendStep(log: seq<DashDraw>, cs: seq<Check>, k: nat, e: seq<DashDraw>)
    requires k < |cs| && e == log + Fired(cs[..k])
    ensures Extend(e, cs[k]) == log + Fired(cs[..k + 1])
  {
    FiredStep(cs, k);
    if !cs[k].changed {
      assert Fired(cs[..k]) + Draws(cs[k]) == Fired(cs[..k]);
    }
  }

  /** Nine checks logged one by one, in order, append the draws of those that fire. */
  lemma ExtendNine(log: seq<DashDraw>, cs: seq<Check>)
    requires |cs| == 9
    ensures Extend(Extend(Extend(Extend(Extend(Extend(Extend(Extend(Extend(log,
              cs[0]), cs[1]), cs[2]), cs[3]), cs[4]), cs[5]), cs[6]), cs[7]), cs[8])
            == log + Fired(cs)
  {
    assert cs[..0] == [] && cs[..9] == cs;
    var e := log;
    assert e == log + Fired(cs[..0]);
    ExtendStep(log, cs, 0, e); e := Extend(e, cs[0]);
    ExtendStep(log, cs, 1, e); e := Extend(e, cs[1]);
    ExtendStep(log, cs, 2, e); e := Extend(e, cs[2]);
    ExtendStep(log, cs, 3, e); e := Extend(e, cs[3]);
    ExtendStep(log, cs, 4, e); e := Extend(e, cs[4]);
    ExtendStep(log, cs, 5, e); e := Extend(e, cs[5]);
    ExtendStep(log, cs, 6, e); e := Extend(e, cs[6]);
    ExtendStep(log, cs, 7, e); e := Extend(e, cs[7]);
    ExtendStep(log, cs, 8, e); e := Extend(e, cs[8]);
  }

  /** Logging check by check appends exactly Redraws. */
  lemma RenderLogIsRedraws(w: int, log: seq<DashDraw>, last: UIData, d: UIData)
    ensures RenderLog(w, log, last, d) == log + Redraws(w, last, d)
  {
    ExtendNine(log, RenderChecks(w, last, d));
  }

  lemma {:induction false} FiredAppend(a: seq<Check>, b: seq<Check>)
    ensures Fired(a + b) == Fired(a) + Fired(b)
    decreases |a|
  {
    if a == [] {
      assert a + b == b;
    } else {
      var h := if a[0].changed then [a[0].draw] else [];
      assert (a + b)[0] == a[0];
      assert (a + b)[1..] == a[1..] + b;
      FiredAppend(a[1..], b);
      calc {
        Fired(a + b);
        h + Fired(a[1..] + b);
        h + (Fired(a[1..]) + Fired(b));
        (h + Fired(a[1..])) + Fired(b);
      }
    }
  }

  /** Taking one more check adds its draw, if it fires, at the end. */
  lemma FiredStep(cs: seq<Check>, k: nat)
    requires k < |cs|
    ensures Fired(cs[..k + 1]) == Fired(cs[..k]) + Draws(cs[k])
  {
    assert cs[..k + 1] == cs[..k] + [cs[k]];
    FiredAppend(cs[..k], [cs[k]]);
    assert [cs[k]][1..] == [];
  }

  /** Nothing is drawn exactly when no check fires. */
  lemma {:induction false} FiredEmpty(cs: seq<Check>)
    ensures Fired(cs) == [] <==> forall i :: 0 <= i < |cs| ==> !cs[i].changed
    decreases |cs|
  {
    if cs != [] {
      FiredEmpty(cs[1..]);
      if Fired(cs) == [] {
        forall i | 0 <= i < |cs|
          ensures !cs[i].changed
        {
          if i > 0 {
            assert cs[i] == cs[1..][i - 1];
          }
        }
      }
    }
  }

  /** A draw happens exactly when some check that fires makes it. */
  lemma {:induction false} FiredMember(cs: seq<Check>, x: DashDraw)
    ensures x in Fired(cs) <==> exists i :: 0 <= i < |cs| && cs[i].changed && cs[i].draw == x
    decreases |cs|
  {
    if cs != [] {
      FiredMember(cs[1..], x);
      if x in Fired(cs[1..]) {
        var j :| 0 <= j < |cs[1..]| && cs[1..][j].changed && cs[1..][j].draw == x;
        assert cs[j + 1] == cs[1..][j];
      }
      if exists i :: 0 <= i < |cs| && cs[i].changed && cs[i].draw == x {
        var i :| 0 <= i < |cs| && cs[i].changed && cs[i].draw == x;
        if i > 0 {
          assert cs[1..][i - 1] == cs[i];
        }
      }
    }
  }

  /** The snapshot agrees with the cache on everything render compares. */
  predicate Matches(last: UIData, d: UIData)
  {
    !HeaderStale(last, d) && d.freq == last.freq && d.bandChar == last.bandChar && d.channel == last.channel
    && d.rssi == last.rssi && d.control.addr == last.control.addr && d.recording == last.recording
    && d.vBypass == last.vBypass && d.azimuth == last.azimuth
  }

  /** render draws nothing exactly when nothing it compares has changed. */
  lemma NothingDrawnIffMatches(w: int, last: UIData, d: UIData)
    ensures Redraws(w, last, d) == [] <==> Matches(last, d)
  {
    var cs := RenderChecks(w, last, d);
    FiredEmpty(cs);
    if Redraws(w, last, d) == [] {
      assert !cs[0].changed && !cs[1].changed && !cs[2].changed && !cs[3].changed && !cs[4].changed;
      assert !cs[5].changed && !cs[6].changed && !cs[7].changed && !cs[8].changed;
    }
  }

  /** No draw of the checks is a row with this index. */
  predicate SkipsRow(r: seq<DashDraw>, index: int)
  {
    forall i :: 0 <= i < |r| && r[i].Row? ==> r[i].index != index
  }

  /** A row no firing check draws is not drawn. */
  lemma SkipsRowWhenNoCheckDraws(cs: seq<Check>, index: int)
    requires forall i :: 0 <= i < |cs| && cs[i].changed && cs[i].draw.Row? ==> cs[i].draw.index != index
    ensures SkipsRow(Fired(cs), index)
  {
    var r := Fired(cs);
    forall k | 0 <= k < |r| && r[k].Row?
      ensures r[k].index != index
    {
      FiredMember(cs, r[k]);
    }
  }

  /** Only the dead second frequency check would draw row 1, so no render draws it. */
  lemma RowOneNeverDrawn(w: int, last: UIData, d: UIData)
    ensures SkipsRow(Redraws(w, last, d), 1)
  {
    SkipsRowWhenNoCheckDraws(RenderChecks(w, last, d), 1);
  }

  /** A render that finds nothing changed leaves the cache exactly as it was. */
  lemma MatchingRenderKeepsCache(last: UIData, d: UIData)
    requires Matches(last, d)
    ensures Cached(last, d) == last
  {
  }

  /** After a render the cache matches the snapshot, so a second render draws nothing and changes nothing. */
  lemma RenderTwiceDrawsNothing(w: int, last: UIData, d: UIData)
    ensures Matches(Cached(last, d), d)
    ensures Redraws(w, Cached(last, d), d) == []
    ensures Cached(Cached(last, d), d) == Cached(last, d)
  {
    var c := Cached(last, d);
    assert !VoltageMoved(d.voltage, c.voltage) by {
      if !HeaderStale(last, d) {
        assert !VoltageMoved(d.voltage, last.voltage);
      }
    }
    NothingDrawnIffMatches(w, c, d);
  }

  /** The RSSI row is redrawn when the value changes, highlighted exactly below 30 dB. */
  lemma RssiRowHighlight(w: int, last: UIData, d: UIData)
    requires d.rssi != last.rssi
    ensures Row(4, "RSSI", Number(d.rssi, " dB"), d.rssi < 30) in Redraws(w, last, d)
  {
    var cs := RenderChecks(w, last, d);
    FiredMember(cs, cs[4].draw);
  }

  /** REC and V_BYPASS share row 6: when both change, the bypass row is drawn right after,
      and over, the record row. */
  lemma RecAndBypassShareRow(w: int, last: UIData, d: UIData)
    requires d.recording != last.recording && d.vBypass != last.vBypass
    ensures var r := Redraws(w, last, d);
      exists i :: 0 <= i < |r| - 1 && r[i] == Row(6, "REC", RecCell(d.recording), d.recording)
                 && r[i + 1] == Row(6, "V_BYPASS", BypassCell(d.vBypass), d.vBypass)
  {
    var cs := RenderChecks(w, last, d);
    assert cs[6].changed && cs[6].draw == Row(6, "REC", RecCell(d.recording), d.recording);
    assert cs[7].changed && cs[7].draw == Row(6, "V_BYPASS", BypassCell(d.vBypass), d.vBypass);
    FiredAdjacent(cs, 6);
    var r := Redraws(w, last, d);
    var i :| 0 <= i < |r| - 1 && r[i] == cs[6].draw && r[i + 1] == cs[7].draw;
  }

  /** Two adjacent checks that both fire draw one right after the other. */
  lemma FiredAdjacent(cs: seq<Check>, k: nat)
    requires k + 1 < |cs| && cs[k].changed && cs[k + 1].changed
    ensures var r := Fired(cs);
      exists i :: 0 <= i < |r| - 1 && r[i] == cs[k].draw && r[i + 1] == cs[k + 1].draw
  {
    var head, tail := cs[..k], cs[k..];
    assert cs == head + tail;
    FiredAppend(head, tail);
    var i := |Fired(head)|;
    assert Fired(tail) == [cs[k].draw, cs[k + 1].draw] + Fired(tail[2..]) by {
      assert tail[1..][1..] == tail[2..];
    }
    assert Fired(cs)[i] == cs[k].draw && Fired(cs)[i + 1] == cs[k + 1].draw;
  }

  /** The first render after start-up draws the compass for any azimuth in 0..359. */
  lemma FirstRenderDrawsCompass(w: int, d: UIData)
    requires 0 <= d.azimuth < 360
    ensures Compass(d.azimuth) in Redraws(w, InitialCache, d)
  {
    var cs := RenderChecks(w, InitialCache, d);
    FiredMember(cs, cs[8].draw);
  }

  /** The -999 V sentinel makes the first render draw the header for any voltage of at least 0 V. */
  lemma FirstRenderDrawsHeader(w: int, d: UIData)
    requires d.voltage >= 0.0
    ensures HeaderDraw(w, d) in Redraws(w, InitialCache, d)
  {
    var cs := RenderChecks(w, InitialCache, d);
    FiredMember(cs, cs[0].draw);
  }

  /** A 0 MHz frequency equals the cache's initial 0, so the first render leaves row 0 undrawn. */
  lemma FirstRenderSkipsZeroFrequency(w: int, d: UIData)
    requires d.freq == 0
    ensures SkipsRow(Redraws(w, InitialCache, d), 0)
  {
    SkipsRowWhenNoCheckDraws(RenderChecks(w, InitialCache, d), 0);
  }

  /** The control pointer is compared by address: new text behind the same pointer is not redrawn. */
  lemma SameControlPointerNotRedrawn(w: int, last: UIData, d: UIData)
    requires d.control.addr == last.control.addr
    ensures SkipsRow(Redraws(w, last, d), 5)
  {
    SkipsRowWhenNoCheckDraws(RenderChecks(w, last, d), 5);
  }

  /** The screen size begin selects: 480x320 in landscape, 320x480 in portrait. */
  function ScreenSize(landscape: u8): (wh: (int, int))
    ensures wh.0 * wh.1 == 480 * 320
    ensures landscape != 0 <==> wh.0 > wh.1
    ensures landscape != 0 ==> wh == (480, 320)
    ensures landscape == 0 ==> wh == (320, 480)
  {
    if landscape != 0 then (480, 320) else (320, 480)
  }
}
