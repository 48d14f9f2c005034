/**
 * DisplayUI_UTFT: the telemetry dashboard. It keeps the last snapshot it
 * drew and, on each render, redraws only the blocks whose value changed.
 * The drawing itself is recorded in the ghost log `drawn`.
 */
module DashboardScreen {
  import opened Wrappers
  import opened CInts
  import opened DashboardModel

  class DisplayUI {
    var W: i16
    var H: i16
    /** last_: the values currently on screen. */
    var last: UIData
    /** Everything drawn so far, in order. */
    ghost var drawn: seq<DashDraw>

    /** The member initialisers: a 480x320 screen and the sentinel cache. */
    constructor ()
      ensures W == 480 && H == 320 && last == InitialCache && drawn == []
    {
      W, H := 480, 320;
      last := InitialCache;
      drawn := [];
    }

    /** begin: pick the size from the orientation, clear the screen, set the cell count, draw the frame. */
    method Begin(landscape: u8, cells: u8)
      modifies this`W, this`H, this`last, this`drawn
      ensures (W as int, H as int) == ScreenSize(landscape)
      ensures last == old(last).(cells := cells)
      ensures drawn == old(drawn) + [Background(W, H)] + FrameDraws(W, H)
    {
      if landscape != 0 {
        W, H := 480, 320;
      } else {
        W, H := 320, 480;
      }
      drawn := drawn + [Background(W, H)];
      last := last.(cells := cells);
      DrawFrame();
    }

    method DrawFrame()
      modifies this`drawn
      ensures drawn == old(drawn) + FrameDraws(W, H)
    {
      drawn := drawn + [Background(W, H), Frame(W - 16, FrameLabels)];
    }

    /** setCells: only the cache changes, so the next render redraws the header when the count differs. */
    method SetCells(cells: u8)
      modifies this`last
      ensures last == old(last).(cells := cells)
    {
      last := last.(cells := cells);
    }

    /** drawHeaderBar: the header card and the battery gauge for `percent`, as drawn. */
    method DrawHeaderBar(voltage: real, percent: int) returns (bar: DashDraw)
      ensures bar == HeaderBar(W, voltage, percent)
    {
      bar := HeaderBar(W, voltage, percent);
    }

    /** render: compare each field with the cache, redraw and record the ones that differ.
        The straight-line body is verified in three parts, in the C order. */
    method Render(d: UIData)
      modifies this`last, this`drawn
      ensures last == Cached(old(last), d)
      ensures drawn == old(drawn) + Redraws(W, old(last), d)
    {
      ghost var l0, d0 := last, drawn;
      RenderHeader(d);
      RenderLinkRows(d, l0);
      RenderStatusRows(d, l0);
      assert drawn == RenderLog(W, d0, l0, d);
      RenderLogIsRedraws(W, d0, l0, d);
    }

    /** The header block of render: voltage and cell count. */
    method RenderHeader(d: UIData)
      modifies this`last, this`drawn
      ensures last == old(last).(voltage := Cached(old(last), d).voltage, cells := d.cells)
      ensures drawn == Extend(old(drawn), HeaderCheck(W, old(last), d))
    {
      if VoltageMoved(d.voltage, last.voltage) || d.cells != last.cells {
        last := last.(voltage := d.voltage, cells := d.cells);
        var percent := VoltageToPercent(d.voltage, d.cells);
        var bar := DrawHeaderBar(d.voltage, percent);
        drawn := drawn + [bar];
      }
    }

    /** The video-link rows of render: frequency, band, channel and RSSI. */
    method RenderLinkRows(d: UIData, ghost base: UIData)
      requires last.freq == base.freq && last.bandChar == base.bandChar
      requires last.channel == base.channel && last.rssi == base.rssi
      modifies this`last, this`drawn
      ensures last == old(last).(freq := d.freq, bandChar := d.bandChar, channel := d.channel, rssi := d.rssi)
      ensures drawn == Extend(Extend(Extend(Extend(old(drawn), FreqCheck(base, d)), BandCheck(base, d)),
                                     ChannelCheck(base, d)), RssiCheck(base, d))
    {
      // the cache and the log are updated in local copies, stored back at the end
      var cache := last;
      ghost var log := drawn;
      if d.freq != cache.freq {
        log := log + [Row(0, "VRX", Number(d.freq, " MHz"), false)];
        cache := cache.(freq := d.freq);
      }
      // a second check of the same field, which never fires: the cache already holds d.freq
      if d.freq != cache.freq {
        log := log + [Row(1, "VIDEO", Number(d.freq, " MHz"), false)];
        cache := cache.(freq := d.freq);
      }
      if d.bandChar != cache.bandChar {
        log := log + [Row(2, "BAND", BandCell(d.bandChar), false)];
        cache := cache.(bandChar := d.bandChar);
      }
      if d.channel != cache.channel {
        log := log + [Row(3, "CHANNEL", Number(d.channel, ""), false)];
        cache := cache.(channel := d.channel);
      }
      if d.rssi != cache.rssi {
        var poor := d.rssi < 30;
        log := log + [Row(4, "RSSI", Number(d.rssi, " dB"), poor)];
        cache := cache.(rssi := d.rssi);
      }
      last := cache;
      drawn := log;
    }

    /** The status rows of render: control link, recording, video bypass, then the compass. */
    method RenderStatusRows(d: UIData, ghost base: UIData)
      requires last.control == base.control && last.recording == base.recording
      requires last.vBypass == base.vBypass && last.azimuth == base.azimuth
      modifies this`last, this`drawn
      ensures last == old(last).(control := Cached(base, d).control, recording := d.recording,
                                 vBypass := d.vBypass, azimuth := d.azimuth)
      ensures drawn == Extend(Extend(Extend(Extend(old(drawn), ControlCheck(base, d)), RecCheck(base, d)),
                                     BypassCheck(base, d)), AzimuthCheck(base, d))
    {
      if d.control.addr != last.control.addr {
        drawn := drawn + [Row(5, "CONTROL", ControlCell(d.control), false)];
        last := last.(control := d.control);
      }
      if d.recording != last.recording {
        drawn := drawn + [Row(6, "REC", RecCell(d.recording), d.recording)];
        last := last.(recording := d.recording);
      }
      if d.vBypass != last.vBypass {
        drawn := drawn + [Row(6, "V_BYPASS", BypassCell(d.vBypass), d.vBypass)];
        last := last.(vBypass := d.vBypass);
      }
      if d.azimuth != last.azimuth {
        drawn := drawn + [Compass(d.azimuth)];
        last := last.(azimuth := d.azimuth);
      }
    }
  }
}
