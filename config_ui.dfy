/**
 * The configuration menu object (class ConfigUI_UTFT): its fields, the
 * inline setters of ConfigUI_UTFT.h, and the state-changing members of
 * ConfigUI_UTFT.cpp. Pixel drawing is recorded in a ghost log of drawn
 * rows; the record/bypass callbacks are recorded in a ghost log of calls.
 * The display size, the pins' levels and the millisecond clock are
 * parameters.
 */
module ConfigScreen {
  import opened Wrappers
  import opened CInts
  import opened CStrings
  import opened ConfigModel

  /** titleH_, rowGap_ and rowH_: initialised in the class and never reassigned. */
  const TitleH: int := 40
  const RowGap: int := 10
  const RowH: int := 48

  /** The height of the menu block: title bar, three rows, two gaps and a 12-pixel margin. */
  const BlockH: int := TitleH + 3 * RowH + 2 * RowGap + 12

  /** The title tick draws the frame with. */
  const Title: string := "CONFIGURATION MODE"

  /** What drawFrame and render put on the screen. */
  datatype MenuDraw =
    | Background(w: int, h: int)
    | TitleBar(x: int, y: int, w: int, text: string)
    | Row(x: int, y: int, w: int, text: string, dim: bool)
    | CurrentRow(x: int, y: int, w: int, text: string, value: string)

  /** An opaque identity for a registered function pointer. */
  type CallbackId = nat

  /** One call of a registered callback. */
  datatype Notification = Notification(callback: CallbackId, notice: Notice)

  /** The calls an edit's notice makes: none when the matching callback is null. */
  function Deliver(n: Option<Notice>, onRec: Option<CallbackId>, onByp: Option<CallbackId>): (calls: seq<Notification>)
    ensures |calls| <= 1
    ensures n.None? ==> calls == []
    ensures |calls| == 1 ==> n.Some? && calls[0].notice == n.value
    ensures n.Some? && n.value.RecordChanged? ==> (|calls| == 1 <==> onRec.Some?)
    ensures n.Some? && n.value.BypassChanged? ==> (|calls| == 1 <==> onByp.Some?)
    ensures n.Some? && n.value.RecordChanged? && onRec.Some? ==> calls == [Notification(onRec.value, n.value)]
    ensures n.Some? && n.value.BypassChanged? && onByp.Some? ==> calls == [Notification(onByp.value, n.value)]
  {
    match n
    case None => []
    case Some(RecordChanged(v)) => if onRec.Some? then [Notification(onRec.value, RecordChanged(v))] else []
    case Some(BypassChanged(v)) => if onByp.Some? then [Notification(onByp.value, BypassChanged(v))] else []
  }

  /** drawFrame's block height: BlockH, cut down to the screen height. */
  function FrameHeight(scrH: u16): (h: int)
    ensures 0 <= h <= scrH && h <= BlockH
    ensures h < BlockH ==> h == scrH
  {
    if BlockH > scrH then scrH else BlockH
  }

  /** drawFrame's Y_: the block centred vertically, always inside the screen. */
  function FrameTop(scrH: u16): (y: u16)
    ensures y + FrameHeight(scrH) <= scrH
    ensures 0 <= (scrH - FrameHeight(scrH) - y) - y <= 1
  {
    (scrH - FrameHeight(scrH)) / 2
  }

  /** drawFrame's X_: `(scrW_ - W_) / 2` in int, stored into uint16_t. */
  function FrameLeft(scrW: u16, w: u16): (x: u16)
    ensures w <= scrW ==> x + w <= scrW && 0 <= (scrW - w - x) - x <= 1
    ensures w > scrW ==> x == (0x1_0000 - (w - scrW) / 2) % 0x1_0000
  {
    var q := TruncDiv(scrW - w, 2);
    TruncHalf(scrW - w);
    WrapU16(q)
  }

  /** C's `a / 2` on int: the halving rounds toward zero on both sides. */
  lemma TruncHalf(a: int)
    ensures a >= 0 ==> TruncDiv(a, 2) == a / 2
    ensures a < 0 ==> TruncDiv(a, 2) == -((-a) / 2)
  {
    var q := TruncDiv(a, 2);
    assert Abs(a - q * 2) < 2;
  }

  /** A block wider than the screen wraps X_ far to the right: 440 on 320 gives 65476. */
  lemma WideBlockWraps()
    ensures FrameLeft(320, 440) == 65476
  {
    assert TruncDiv(-120, 2) == -60;
  }

  /** Every item name fits a 24-byte buffer whole. */
  lemma NameFitsBuffer(i: int)
    requires 0 <= i < ItemsCount
    ensures CLen(Names[i]) == |Names[i]| <= 23
    ensures Shown(Names[i]) == Names[i]
  {
    var name := Names[i];
    assert |name| <= 23 && NUL !in name by {
      if i == 0 { assert name == "VIDEO BAND"; }
      else if i == 1 { assert name == "CHANNEL"; }
      else if i == 2 { assert name == "RECORDING"; }
      else { assert name == "V_BYPASS"; }
    }
    PlainText(name);
  }

  /** A 24-byte buffer filled from `v` by strncpy and a forced terminator reads as Shown(v). */
  lemma BufferShows(v: string)
    ensures CText(TerminatedCopy(v, 24)) == Shown(v)
  {
    TerminatedCopyText(v, 24);
  }

  /** What drawFrame draws: the background, the title bar and three placeholder rows. */
  function FrameDraws(x: int, y: int, w: int, scrW: int, scrH: int, title: string): (d: seq<MenuDraw>)
    ensures |d| == 5 && d[0] == Background(scrW, scrH) && d[1] == TitleBar(x, y, w, title)
    ensures forall i :: 2 <= i < 5 ==> d[i].Row? && d[i].x == x && d[i].w == w && d[i].text == "..."
    ensures d[2].dim && !d[3].dim && d[4].dim
    ensures d[2].y == y + TitleH + 12
    ensures d[3].y - d[2].y == RowH + RowGap && d[4].y - d[3].y == RowH + RowGap
    ensures d[4].y + RowH == y + BlockH
  {
    var y1 := y + TitleH + 12;
    var y2 := y1 + RowH + RowGap;
    var y3 := y2 + RowH + RowGap;
    [Background(scrW, scrH), TitleBar(x, y, w, title),
     Row(x, y1, w, "...", true), Row(x, y2, w, "...", false), Row(x, y3, w, "...", true)]
  }

  /** What render draws: the previous item dimmed, the cursor's item with its value, the next item dimmed. */
  function RenderDraws(x: int, y: int, w: int, c: int, labels: ConfigLabels, s: Settings): (d: seq<MenuDraw>)
    requires 0 <= c < ItemsCount && LabelsReadable(labels)
    ensures |d| == 3 && d[0].Row? && d[1].CurrentRow? && d[2].Row?
    ensures d[0].dim && d[2].dim
    ensures d[0].text == Names[PrevIndex(c)] && d[2].text == Names[NextIndex(c)]
    ensures d[1].text == Names[c]
    ensures d[1].value == Shown(ShownValue(ValueForItem(labels, s, ItemAt(c))))
    ensures d[0].y == y + 52 && d[1].y == d[0].y + RowH + 10 && d[2].y == d[1].y + RowH + 10
    ensures forall i :: 0 <= i < 3 ==> d[i].x == x && d[i].w == w
    ensures d[0].text != d[1].text && d[1].text != d[2].text && d[0].text != d[2].text
  {
    NamesDistinct(PrevIndex(c), c);
    NamesDistinct(c, NextIndex(c));
    NamesDistinct(PrevIndex(c), NextIndex(c));
    var yPrev := y + 52;
    var yCur := yPrev + RowH + 10;
    var yNext := yCur + RowH + 10;
    [Row(x, yPrev, w, NameOf(PrevIndex(c)), true),
     CurrentRow(x, yCur, w, Names[c], Shown(ShownValue(ValueForItem(labels, s, ItemAt(c))))),
     Row(x, yNext, w, NameOf(NextIndex(c)), true)]
  }

  /** render's three rows land on the three rows drawFrame laid out. */
  lemma RenderOverlaysFrame(x: int, y: int, w: int, scrW: int, scrH: int, title: string,
                            c: int, labels: ConfigLabels, s: Settings)
    requires 0 <= c < ItemsCount && LabelsReadable(labels)
    ensures var f := FrameDraws(x, y, w, scrW, scrH, title);
            var r := RenderDraws(x, y, w, c, labels, s);
            forall i :: 0 <= i < 3 ==> r[i].x == f[i + 2].x && r[i].y == f[i + 2].y && r[i].w == f[i + 2].w
  {
  }

  /** ConfigState: the caller-owned record that tick edits in place. */
  class ConfigState {
    var vrxMode: u8
    var vrxband: u8
    var vrxchan: u8
    var record: u8
    var bypass: u8

    function Value(): Settings
      reads this
    {
      Settings(vrxMode, vrxband, vrxchan, record, bypass)
    }

    constructor (s: Settings)
      ensures Value() == s
    {
      vrxMode, vrxband, vrxchan, record, bypass := s.vrxMode, s.vrxband, s.vrxchan, s.record, s.bypass;
    }
  }

  class ConfigUI {
    var pinUp: u8
    var pinDown: u8
    var pinLeft: u8
    var pinRight: u8
    var lastBtnMs: u32
    var scrW: u16
    var scrH: u16
    var X: u16
    var Y: u16
    var W: u16
    var labels: ConfigLabels
    var cursor: int
    var needFullRedraw: bool
    var onRecChanged: Option<CallbackId>
    var onBypassChanged: Option<CallbackId>

    /** Everything drawn so far. */
    ghost var draws: seq<MenuDraw>
    /** Every callback call so far. */
    ghost var notified: seq<Notification>

    ghost predicate Valid()
      reads this
    {
      0 <= cursor < ItemsCount
    }

    /** The menu state tick works on, with the caller's settings. */
    function MachineOf(st: ConfigState): Machine
      reads this, st
    {
      Machine(cursor, lastBtnMs, st.Value())
    }

    /** The member initialisers of ConfigUI_UTFT.h. */
    constructor ()
      ensures Valid()
      ensures cursor == 0 && needFullRedraw && lastBtnMs == 0
      ensures scrW == 480 && scrH == 320 && X == 16 && Y == 64 && W == 440
      ensures pinUp == 0 && pinDown == 0 && pinLeft == 0 && pinRight == 0
      ensures labels == NoLabels && onRecChanged.None? && onBypassChanged.None?
      ensures draws == [] && notified == []
    {
      pinUp, pinDown, pinLeft, pinRight := 0, 0, 0, 0;
      lastBtnMs := 0;
      scrW, scrH := 480, 320;
      X, Y, W := 16, 64, 440;
      labels := NoLabels;
      cursor := 0;
      needFullRedraw := true;
      onRecChanged, onBypassChanged := None, None;
      draws, notified := [], [];
    }

    /** begin: take the display size, the pins, the label tables and the block geometry. */
    method Begin(displayW: u16, displayH: u16, up: u8, down: u8, left: u8, right: u8,
                 newLabels: ConfigLabels, startY: u16, blockW: u16)
      modifies this`scrW, this`scrH, this`pinUp, this`pinDown, this`pinLeft, this`pinRight,
               this`labels, this`Y, this`W, this`needFullRedraw
      ensures scrW == displayW && scrH == displayH
      ensures pinUp == up && pinDown == down && pinLeft == left && pinRight == right
      ensures labels == newLabels && Y == startY && W == blockW && needFullRedraw
    {
      scrW, scrH := displayW, displayH;
      pinUp, pinDown, pinLeft, pinRight := up, down, left, right;
      labels := newLabels;
      Y, W := startY, blockW;
      needFullRedraw := true;
    }

    /** setCallbacks: replace both callbacks. */
    method SetCallbacks(onRec: Option<CallbackId>, onByp: Option<CallbackId>)
      modifies this`onRecChanged, this`onBypassChanged
      ensures onRecChanged == onRec && onBypassChanged == onByp
    {
      onRecChanged, onBypassChanged := onRec, onByp;
    }

    /** forceRedraw: ask for a full frame on the next tick. */
    method ForceRedraw()
      modifies this`needFullRedraw
      ensures needFullRedraw
    {
      needFullRedraw := true;
    }

    /** resetCursor: back to the first item, with a full frame on the next tick. */
    method ResetCursor()
      modifies this`cursor, this`needFullRedraw
      ensures Valid() && cursor == 0 && needFullRedraw
    {
      cursor := 0;
      needFullRedraw := true;
    }

    /** setScreenSize. */
    method SetScreenSize(screenW: u16, screenH: u16)
      modifies this`scrW, this`scrH
      ensures scrW == screenW && scrH == screenH
    {
      scrW, scrH := screenW, screenH;
    }

    /** drawFrame: centre the block, draw the chrome, and clear the pending-redraw flag. */
    method DrawFrame(title: string)
      modifies this`X, this`Y, this`needFullRedraw, this`draws
      ensures Y == FrameTop(scrH) && X == FrameLeft(scrW, W) && !needFullRedraw
      ensures Y + FrameHeight(scrH) <= scrH
      ensures W <= scrW ==> X + W <= scrW
      ensures draws == old(draws) + FrameDraws(X, Y, W, scrW, scrH, title)
    {
      var totalH := BlockH;
      if totalH > scrH {
        totalH := scrH;
      }
      Y := (scrH - totalH) / 2;
      X := WrapU16(TruncDiv(scrW - W, 2));
      draws := draws + FrameDraws(X, Y, W, scrW, scrH, title);
      needFullRedraw := false;
    }

    /** computeCurrentStrings: the cursor item's name and value, each copied into its buffer. */
    method ComputeCurrentStrings(st: ConfigState, labelBuf: array<char>, valueBuf: array<char>)
      requires Valid() && LabelsReadable(labels)
      requires labelBuf.Length >= 1 && valueBuf.Length >= 1
      modifies labelBuf, valueBuf
      ensures valueBuf[..] == TerminatedCopy(ShownValue(ValueForItem(labels, st.Value(), ItemAt(cursor))), valueBuf.Length)
      ensures labelBuf != valueBuf ==> labelBuf[..] == TerminatedCopy(Names[cursor], labelBuf.Length)
    {
      CopyTerminated(labelBuf, Names[cursor]);
      var val := ValueForItem(labels, st.Value(), ItemAt(cursor));
      CopyTerminated(valueBuf, ShownValue(val));
    }

    /** render: the three rows around the cursor. */
    method Render(st: ConfigState)
      requires Valid() && LabelsReadable(labels)
      modifies this`draws
      ensures draws == old(draws) + RenderDraws(X, Y, W, cursor, labels, st.Value())
    {
      var yPrev := Y + 52;
      var yCur := yPrev + RowH + 10;
      var yNext := yCur + RowH + 10;
      var prev := Row(X, yPrev, W, NameOf(PrevIndex(cursor)), true);
      var current := CurrentRowText(st, yCur);
      var next := Row(X, yNext, W, NameOf(NextIndex(cursor)), true);
      draws := draws + [prev, current, next];
    }

    /** The middle row of render: the label and value buffers of computeCurrentStrings, as read back. */
    method CurrentRowText(st: ConfigState, y: int) returns (row: MenuDraw)
      requires Valid() && LabelsReadable(labels)
      ensures row == CurrentRow(X, y, W, Names[cursor], Shown(ShownValue(ValueForItem(labels, st.Value(), ItemAt(cursor)))))
    {
      var labelText := new char[24];
      var valueText := new char[24];
      ComputeCurrentStrings(st, labelText, valueText);
      BufferShows(Names[cursor]);
      NameFitsBuffer(cursor);
      BufferShows(ShownValue(ValueForItem(labels, st.Value(), ItemAt(cursor))));
      row := CurrentRow(X, y, W, CText(labelText[..]), CText(valueText[..]));
    }

    /** applyLeft: decrement the field under the cursor; tell the callback when record or bypass moved. */
    method ApplyLeft(st: ConfigState)
      requires Valid()
      modifies st, this`notified
      ensures var e := LeftEdit(old(st.Value()), ItemAt(cursor));
              st.Value() == e.after && notified == old(notified) + Deliver(e.notice, onRecChanged, onBypassChanged)
    {
      if cursor == 0 {
        if st.vrxMode == 1 {
          if st.vrxband > 0 { st.vrxband := st.vrxband - 1; }
        }
      } else if cursor == 1 {
        if st.vrxchan > 0 { st.vrxchan := st.vrxchan - 1; }
      } else if cursor == 2 {
        if st.record > 0 {
          st.record := st.record - 1;
          if onRecChanged.Some? { notified := notified + [Notification(onRecChanged.value, RecordChanged(st.record))]; }
        }
      } else {
        if st.bypass > 0 {
          st.bypass := st.bypass - 1;
          if onBypassChanged.Some? { notified := notified + [Notification(onBypassChanged.value, BypassChanged(st.bypass))]; }
        }
      }
    }

    /** applyRight: increment the field under the cursor below its count; record and bypass always notify. */
    method ApplyRight(st: ConfigState)
      requires Valid()
      modifies st, this`notified
      ensures var e := RightEdit(labels, old(st.Value()), ItemAt(cursor));
              st.Value() == e.after && notified == old(notified) + Deliver(e.notice, onRecChanged, onBypassChanged)
    {
      if cursor == 0 {
        if st.vrxMode == 1 && labels.bands.count != 0 {
          if st.vrxband + 1 < labels.bands.count { st.vrxband := st.vrxband + 1; }
        }
      } else if cursor == 1 {
        if labels.chans.count != 0 {
          if st.vrxchan + 1 < labels.chans.count { st.vrxchan := st.vrxchan + 1; }
        }
      } else if cursor == 2 {
        if labels.rec.count != 0 {
          if st.record + 1 < labels.rec.count { st.record := st.record + 1; }
          if onRecChanged.Some? { notified := notified + [Notification(onRecChanged.value, RecordChanged(st.record))]; }
        }
      } else {
        if labels.bypass.count != 0 {
          if st.bypass + 1 < labels.bypass.count { st.bypass := st.bypass + 1; }
          if onBypassChanged.Some? { notified := notified + [Notification(onBypassChanged.value, BypassChanged(st.bypass))]; }
        }
      }
    }

    /** tick: the per-frame entry point. Returns whether a button was acted on. */
    method Tick(st: ConfigState, editMode: bool, now: u32, up: bool, down: bool, left: bool, right: bool)
      returns (changed: bool)
      requires Valid() && LabelsReadable(labels)
      modifies st, this`cursor, this`lastBtnMs, this`needFullRedraw, this`X, this`Y, this`draws, this`notified
      ensures Valid() && !needFullRedraw
      ensures old(needFullRedraw) ==> X == FrameLeft(scrW, W) && Y == FrameTop(scrH)
      ensures !old(needFullRedraw) ==> X == old(X) && Y == old(Y)
      ensures var r := Step(labels, old(MachineOf(st)), TickInput(now, editMode, Buttons(up, down, left, right)));
              MachineOf(st) == r.next && changed == r.changed &&
              notified == old(notified) + Deliver(r.notice, onRecChanged, onBypassChanged)
      ensures !Accepts(editMode, now, old(lastBtnMs)) ==>
              !changed && cursor == old(cursor) && lastBtnMs == old(lastBtnMs) && st.Value() == old(st.Value())
      ensures draws == old(draws)
        + (if old(needFullRedraw)
           then FrameDraws(X, Y, W, scrW, scrH, Title) + RenderDraws(X, Y, W, old(cursor), labels, old(st.Value()))
           else [])
        + (if changed then RenderDraws(X, Y, W, cursor, labels, st.Value()) else [])
    {
      RedrawIfPending(st);
      changed := HandleInput(st, editMode, now, up, down, left, right);
    }

    /** The first half of tick: a pending full redraw draws the frame and the rows, then clears the flag. */
    method RedrawIfPending(st: ConfigState)
      requires Valid() && LabelsReadable(labels)
      modifies this`needFullRedraw, this`X, this`Y, this`draws
      ensures Valid() && !needFullRedraw
      ensures old(needFullRedraw) ==> X == FrameLeft(scrW, W) && Y == FrameTop(scrH)
      ensures !old(needFullRedraw) ==> X == old(X) && Y == old(Y)
      ensures draws == old(draws)
        + (if old(needFullRedraw)
           then FrameDraws(X, Y, W, scrW, scrH, Title) + RenderDraws(X, Y, W, cursor, labels, st.Value())
           else [])
    {
      if needFullRedraw {
        DrawFrame(Title);
        Render(st);
        needFullRedraw := false;
      }
    }

    /** The input half of tick: the edit-mode gate, the debounce gate and the prioritised buttons. */
    method HandleInput(st: ConfigState, editMode: bool, now: u32, up: bool, down: bool, left: bool, right: bool)
      returns (changed: bool)
      requires Valid() && LabelsReadable(labels)
      modifies st, this`cursor, this`lastBtnMs, this`draws, this`notified
      ensures Valid()
      ensures var r := Step(labels, old(MachineOf(st)), TickInput(now, editMode, Buttons(up, down, left, right)));
              MachineOf(st) == r.next && changed == r.changed &&
              notified == old(notified) + Deliver(r.notice, onRecChanged, onBypassChanged)
      ensures !Accepts(editMode, now, old(lastBtnMs)) ==>
              !changed && cursor == old(cursor) && lastBtnMs == old(lastBtnMs) && st.Value() == old(st.Value())
      ensures draws == old(draws) + (if changed then RenderDraws(X, Y, W, cursor, labels, st.Value()) else [])
    {
      changed := false;
      if !editMode {
        return;
      }
      if Elapsed(now, lastBtnMs) < DebounceMs {
        return;
      }
      ghost var t := TickInput(now, editMode, Buttons(up, down, left, right));
      if up {
        assert Pick(t.buttons) == Some(Up);
        ActOn(st, Up, now);
        changed := true;
      } else if down {
        assert Pick(t.buttons) == Some(Down);
        ActOn(st, Down, now);
        changed := true;
      } else if left {
        assert Pick(t.buttons) == Some(Left);
        ActOn(st, Left, now);
        changed := true;
      } else if right {
        assert Pick(t.buttons) == Some(Right);
        ActOn(st, Right, now);
        changed := true;
      }
    }

    /** One accepted press: move or edit, redraw the rows, and stamp lastBtnMs_. */
    method ActOn(st: ConfigState, p: Press, now: u32)
      requires Valid() && LabelsReadable(labels)
      modifies st, this`cursor, this`lastBtnMs, this`draws, this`notified
      ensures Valid()
      ensures var r := Act(labels, old(MachineOf(st)), p, now);
              MachineOf(st) == r.next && notified == old(notified) + Deliver(r.notice, onRecChanged, onBypassChanged)
      ensures draws == old(draws) + RenderDraws(X, Y, W, cursor, labels, st.Value())
    {
      match p {
        case Up => cursor := PrevIndex(cursor);
        case Down => cursor := NextIndex(cursor);
        case Left => ApplyLeft(st);
        case Right => ApplyRight(st);
      }
      Render(st);
      lastBtnMs := now;
    }
  }
}
