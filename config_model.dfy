/**
 * The configuration menu's logic without its drawing (ConfigUI_UTFT.h and
 * the pure parts of ConfigUI_UTFT.cpp): the four editable items, the
 * caller's settings record, the label tables and their clamped lookups, the
 * saturating left/right edits, and one tick of the button state machine as
 * a function, so that runs of ticks can be reasoned about.
 */
module ConfigModel {
  import opened Wrappers
  import opened CInts
  import opened CStrings

  // ---------------------------------------------------------------- items

  /** The editable items, in menu order (enum ConfigItem). */
  datatype ConfigItem = Band | Chan | Record | Bypass

  /** CFG_ITEMS_COUNT. */
  const ItemsCount: nat := 4

  function ItemIndex(it: ConfigItem): (i: nat)
    ensures i < ItemsCount
  {
    match it
    case Band => 0
    case Chan => 1
    case Record => 2
    case Bypass => 3
  }

  /** The item a cursor position selects (the cast `(ConfigItem)cursor_`). */
  function ItemAt(i: int): (it: ConfigItem)
    requires 0 <= i < ItemsCount
    ensures ItemIndex(it) == i
  {
    if i == 0 then Band else if i == 1 then Chan else if i == 2 then Record else Bypass
  }

  /** The two numberings agree: there are exactly four items, 0..3. */
  lemma ItemNumbering(it: ConfigItem)
    ensures ItemAt(ItemIndex(it)) == it
  {
  }

  /** The item names the menu shows. */
  const Names: seq<string> := ["VIDEO BAND", "CHANNEL", "RECORDING", "V_BYPASS"]

  /** The four item names are pairwise different, so no two menu rows read alike. */
  lemma NamesDistinct(i: int, j: int)
    requires 0 <= i < ItemsCount && 0 <= j < ItemsCount && i != j
    ensures Names[i] != Names[j]
  {
    assert |Names[0]| == 10 && |Names[1]| == 7 && |Names[2]| == 9 && |Names[3]| == 8;
  }

  /** The `nameOf` helper of render: an empty name past the last item. */
  function NameOf(idx: u8): (name: string)
    ensures idx < ItemsCount ==> name == Names[idx]
    ensures idx >= ItemsCount ==> name == ""
  {
    if idx >= ItemsCount then "" else Names[idx]
  }

  /** The row above the cursor: `(cursor + CFG_ITEMS_COUNT - 1) % CFG_ITEMS_COUNT`. */
  function PrevIndex(c: int): (p: int)
    requires 0 <= c < ItemsCount
    ensures 0 <= p < ItemsCount && p != c
    ensures NextIndex(p) == c
  {
    (c + ItemsCount - 1) % ItemsCount
  }

  /** The row below the cursor: `(cursor + 1) % CFG_ITEMS_COUNT`. */
  function NextIndex(c: int): (n: int)
    requires 0 <= c < ItemsCount
    ensures 0 <= n < ItemsCount && n != c
  {
    (c + 1) % ItemsCount
  }

  /** Moving down then up returns to the same item. */
  lemma PrevUndoesNext(c: int)
    requires 0 <= c < ItemsCount
    ensures PrevIndex(NextIndex(c)) == c
  {
  }

  /** The cursor after k moves down. */
  function DownMoves(c: int, k: nat): (r: int)
    requires 0 <= c < ItemsCount
    ensures 0 <= r < ItemsCount
    decreases k
  {
    if k == 0 then c else DownMoves(NextIndex(c), k - 1)
  }

  /** Moving down is a cycle of length four: k moves land on (c + k) % 4. */
  lemma {:induction false} DownMovesCycle(c: int, k: nat)
    requires 0 <= c < ItemsCount
    ensures DownMoves(c, k) == (c + k) % ItemsCount
    decreases k
  {
    if k > 0 {
      DownMovesCycle(NextIndex(c), k - 1);
      if c < ItemsCount - 1 {
        assert NextIndex(c) == c + 1;
      } else {
        assert NextIndex(c) == 0;
        assert c + k == (k - 1) + ItemsCount;
      }
    }
  }

  /** Four presses of "down" come back to the starting item; "up" from 0 is 3. */
  lemma CursorCycleExamples(c: int)
    requires 0 <= c < ItemsCount
    ensures DownMoves(c, 4) == c
    ensures PrevIndex(0) == 3
  {
    DownMovesCycle(c, 4);
  }

  // ------------------------------------------------------------- settings

  /** ConfigState: the caller's record, as a value (vrxMode 1 is 5.8G, 2 is 1.2G). */
  datatype Settings = Settings(vrxMode: u8, vrxband: u8, vrxchan: u8, record: u8, bypass: u8)

  /** The field an item edits. */
  function Field(s: Settings, it: ConfigItem): u8
  {
    match it
    case Band => s.vrxband
    case Chan => s.vrxchan
    case Record => s.record
    case Bypass => s.bypass
  }

  /** The band is only meaningful, and only editable, in 5.8G mode. */
  predicate Editable(s: Settings, it: ConfigItem)
  {
    it != Band || s.vrxMode == 1
  }

  // --------------------------------------------------------------- labels

  /** A `const char*`: None is the null pointer. */
  type CStr = Option<string>

  /** One label array with its declared element count; `names` None is a null array. */
  datatype LabelTable = LabelTable(names: Option<seq<CStr>>, count: u8)

  /** ConfigLabels. */
  datatype ConfigLabels = ConfigLabels(bands: LabelTable, chans: LabelTable, rec: LabelTable, bypass: LabelTable)

  /** The value-initialised `labels_{}`: null arrays, zero counts. */
  const NoLabels := ConfigLabels(LabelTable(None, 0), LabelTable(None, 0), LabelTable(None, 0), LabelTable(None, 0))

  function TableFor(labels: ConfigLabels, it: ConfigItem): LabelTable
  {
    match it
    case Band => labels.bands
    case Chan => labels.chans
    case Record => labels.rec
    case Bypass => labels.bypass
  }

  /** The number of values an item can take (bandsCount, chansCount, recCount, bypassCount). */
  function Limit(labels: ConfigLabels, it: ConfigItem): u8
  {
    TableFor(labels, it).count
  }

  /** `if (i >= count) i = count - 1;` on uint8_t: with count 0 the index wraps to 255. */
  function ClampIndex(i: u8, count: u8): (r: u8)
    ensures count > 0 ==> r < count
    ensures i < count ==> r == i
    ensures i >= count && count > 0 ==> r == count - 1
    ensures count == 0 ==> r == 0xFF
  {
    if i >= count then (count - 1) % 0x100 else i
  }

  /** The result of reading a label: a text, a null pointer, or a read past the array's end. */
  datatype Lookup = Found(text: string) | NullText | OutOfBounds(index: u8)

  function TableLookup(t: LabelTable, i: u8): (r: Lookup)
    ensures t.names.None? ==> r == NullText
    ensures r.OutOfBounds? <==> t.names.Some? && ClampIndex(i, t.count) >= |t.names.value|
    ensures r.OutOfBounds? ==> r.index == ClampIndex(i, t.count)
    ensures r.Found? ==> var j := ClampIndex(i, t.count);
      t.names.Some? && j < |t.names.value| && t.names.value[j] == Some(r.text)
    ensures t.names.Some? && ClampIndex(i, t.count) < |t.names.value| ==>
      t.names.value[ClampIndex(i, t.count)] == (if r.Found? then Some(r.text) else None)
  {
    match t.names
    case None => NullText
    case Some(names) =>
      var j := ClampIndex(i, t.count);
      if j >= |names| then OutOfBounds(j)
      else match names[j]
        case None => NullText
        case Some(text) => Found(text)
  }

  /** No index can make a lookup in `t` read past its array. */
  predicate Readable(t: LabelTable)
  {
    t.names.None? || ClampIndex(0xFF, t.count) < |t.names.value|
  }

  predicate LabelsReadable(labels: ConfigLabels)
  {
    Readable(labels.bands) && Readable(labels.chans) && Readable(labels.rec) && Readable(labels.bypass)
  }

  /** Readable is exactly "every lookup stays in the array". */
  lemma ReadableMeansInBounds(t: LabelTable)
    ensures Readable(t) <==> forall i: u8 :: !TableLookup(t, i).OutOfBounds?
  {
    if !Readable(t) {
      assert TableLookup(t, 0xFF).OutOfBounds?;
    }
  }

  /** A table of `count` entries is readable when count > 0. */
  lemma CountedTableReadable(t: LabelTable)
    requires t.names.Some? && 0 < t.count as int <= |t.names.value|
    ensures Readable(t)
  {
  }

  /** With count 0 the clamp wraps to index 255, past any shorter non-null array. */
  lemma EmptyCountWraps(t: LabelTable, i: u8)
    requires t.count == 0 && t.names.Some? && |t.names.value| < 0x100
    ensures TableLookup(t, i) == OutOfBounds(0xFF)
  {
  }

  /** valueForItem: the label for an item's current value. */
  function ValueForItem(labels: ConfigLabels, s: Settings, it: ConfigItem): (r: Lookup)
    ensures it == Band && s.vrxMode != 1 ==> r == Found("N/A")
    ensures Editable(s, it) ==> r == TableLookup(TableFor(labels, it), Field(s, it))
    ensures LabelsReadable(labels) ==> !r.OutOfBounds?
  {
    match it
    case Band => if s.vrxMode == 1 then TableLookup(labels.bands, s.vrxband) else Found("N/A")
    case Chan => TableLookup(labels.chans, s.vrxchan)
    case Record => TableLookup(labels.rec, s.record)
    case Bypass => TableLookup(labels.bypass, s.bypass)
  }

  /** The value text computeCurrentStrings copies: a null label becomes "--". */
  function ShownValue(r: Lookup): (text: string)
    requires !r.OutOfBounds?
    ensures r.NullText? ==> text == "--"
    ensures r.Found? ==> text == r.text
  {
    if r.Found? then r.text else "--"
  }

  /** A menu begun without labels reads no table: every value shows "--", the band "N/A" outside 5.8G mode. */
  lemma UnlabelledValues(s: Settings, it: ConfigItem)
    ensures LabelsReadable(NoLabels)
    ensures it == Band && s.vrxMode != 1 ==> ShownValue(ValueForItem(NoLabels, s, it)) == "N/A"
    ensures Editable(s, it) ==> ShownValue(ValueForItem(NoLabels, s, it)) == "--"
  {
  }

  /** The text a 24-byte buffer shows after computeCurrentStrings: at most 23 characters. */
  function Shown(src: string): (t: string)
    ensures |t| <= 23 && t <= CText(src)
    ensures |t| == Min(CLen(src), 23)
  {
    CText(src)[..Min(CLen(src), 23)]
  }

  // ---------------------------------------------------------------- edits

  /** A call of onRecChanged_ / onBypassChanged_ with the new value. */
  datatype Notice = RecordChanged(value: u8) | BypassChanged(value: u8)

  /** The new settings and the notification an edit raises, if any. */
  datatype Edit = Edit(after: Settings, notice: Option<Notice>)

  function NoticeFor(it: ConfigItem, v: u8): Notice
    requires it == Record || it == Bypass
  {
    if it == Record then RecordChanged(v) else BypassChanged(v)
  }

  /** applyLeft: decrement the item under the cursor, stopping at 0. */
  function LeftEdit(s: Settings, it: ConfigItem): (e: Edit)
    ensures e.after.vrxMode == s.vrxMode
    ensures forall o :: o != it ==> Field(e.after, o) == Field(s, o)
    ensures Field(e.after, it) == if Editable(s, it) && Field(s, it) > 0 then Field(s, it) - 1 else Field(s, it)
    ensures e.notice.Some? <==> (it == Record || it == Bypass) && Field(e.after, it) != Field(s, it)
    ensures e.notice.Some? ==> e.notice.value == NoticeFor(it, Field(e.after, it))
  {
    match it
    case Band =>
      if s.vrxMode == 1 && s.vrxband > 0 then Edit(s.(vrxband := s.vrxband - 1), None) else Edit(s, None)
    case Chan =>
      if s.vrxchan > 0 then Edit(s.(vrxchan := s.vrxchan - 1), None) else Edit(s, None)
    case Record =>
      if s.record > 0 then Edit(s.(record := s.record - 1), Some(RecordChanged(s.record - 1))) else Edit(s, None)
    case Bypass =>
      if s.bypass > 0 then Edit(s.(bypass := s.bypass - 1), Some(BypassChanged(s.bypass - 1))) else Edit(s, None)
  }

  /** applyRight: increment the item under the cursor while it stays below its count. */
  function RightEdit(labels: ConfigLabels, s: Settings, it: ConfigItem): (e: Edit)
    ensures e.after.vrxMode == s.vrxMode
    ensures forall o :: o != it ==> Field(e.after, o) == Field(s, o)
    ensures Field(e.after, it) ==
      if Editable(s, it) && Field(s, it) + 1 < Limit(labels, it) then Field(s, it) + 1 else Field(s, it)
    ensures Field(s, it) < Limit(labels, it) ==> Field(e.after, it) < Limit(labels, it)
    ensures e.notice.Some? <==> (it == Record || it == Bypass) && Limit(labels, it) != 0
    ensures e.notice.Some? ==> e.notice.value == NoticeFor(it, Field(e.after, it))
  {
    match it
    case Band =>
      if s.vrxMode == 1 && labels.bands.count != 0 && s.vrxband + 1 < labels.bands.count
      then Edit(s.(vrxband := s.vrxband + 1), None) else Edit(s, None)
    case Chan =>
      if labels.chans.count != 0 && s.vrxchan + 1 < labels.chans.count
      then Edit(s.(vrxchan := s.vrxchan + 1), None) else Edit(s, None)
    case Record =>
      if labels.rec.count == 0 then Edit(s, None)
      else
        var v := if s.record + 1 < labels.rec.count then s.record + 1 else s.record;
        Edit(s.(record := v), Some(RecordChanged(v)))
    case Bypass =>
      if labels.bypass.count == 0 then Edit(s, None)
      else
        var v := if s.bypass + 1 < labels.bypass.count then s.bypass + 1 else s.bypass;
        Edit(s.(bypass := v), Some(BypassChanged(v)))
  }

  /** A right press undoes a left press that moved an in-range value. */
  lemma RightUndoesLeft(labels: ConfigLabels, s: Settings, it: ConfigItem)
    requires Editable(s, it) && 0 < Field(s, it) < Limit(labels, it)
    ensures RightEdit(labels, LeftEdit(s, it).after, it).after == s
  {
    var l := LeftEdit(s, it).after;
    var r := RightEdit(labels, l, it).after;
    assert Field(r, it) == Field(s, it);
  }

  /** A left press undoes a right press that moved the value. */
  lemma LeftUndoesRight(labels: ConfigLabels, s: Settings, it: ConfigItem)
    requires Editable(s, it) && Field(s, it) + 1 < Limit(labels, it)
    ensures LeftEdit(RightEdit(labels, s, it).after, it).after == s
  {
    var r := RightEdit(labels, s, it).after;
    var l := LeftEdit(r, it).after;
    assert Field(l, it) == Field(s, it);
  }

  /** The settings after k left presses on one item. */
  function LeftPresses(s: Settings, it: ConfigItem, k: nat): Settings
    decreases k
  {
    if k == 0 then s else LeftPresses(LeftEdit(s, it).after, it, k - 1)
  }

  /** The settings after k right presses on one item. */
  function RightPresses(labels: ConfigLabels, s: Settings, it: ConfigItem, k: nat): Settings
    decreases k
  {
    if k == 0 then s else RightPresses(labels, RightEdit(labels, s, it).after, it, k - 1)
  }

  /** Repeated left presses count down and stay at 0. */
  lemma {:induction false} LeftPressesSaturate(s: Settings, it: ConfigItem, k: nat)
    requires Editable(s, it)
    ensures Field(LeftPresses(s, it, k), it) == Max(Field(s, it) - k, 0)
    ensures forall o :: o != it ==> Field(LeftPresses(s, it, k), o) == Field(s, o)
    decreases k
  {
    if k > 0 {
      LeftPressesSaturate(LeftEdit(s, it).after, it, k - 1);
    }
  }

  /** Repeated right presses count up and stay at count - 1, never leaving [0, count). */
  lemma {:induction false} RightPressesSaturate(labels: ConfigLabels, s: Settings, it: ConfigItem, k: nat)
    requires Editable(s, it) && Field(s, it) < Limit(labels, it)
    ensures Field(RightPresses(labels, s, it, k), it) == Min(Field(s, it) + k, Limit(labels, it) - 1)
    ensures forall o :: o != it ==> Field(RightPresses(labels, s, it, k), o) == Field(s, o)
    decreases k
  {
    if k > 0 {
      RightPressesSaturate(labels, RightEdit(labels, s, it).after, it, k - 1);
    }
  }

  /** With 8 channels, pressing right at channel 7 keeps it at 7. */
  lemma ChannelStaysAtTop(labels: ConfigLabels, s: Settings, k: nat)
    requires labels.chans.count == 8 && s.vrxchan == 7
    ensures RightPresses(labels, s, Chan, k).vrxchan == 7
  {
    RightPressesSaturate(labels, s, Chan, k);
  }

  // ----------------------------------------------------------------- tick

  /** debounceMs_. */
  const DebounceMs: nat := 120

  /** `now - lastBtnMs_` on unsigned long: the time since `since`, across clock wrap-around. */
  function Elapsed(now: u32, since: u32): (d: u32)
    ensures (since + d) % 0x1_0000_0000 == now
  {
    (now - since) % 0x1_0000_0000
  }

  /** Whether tick looks at the buttons at all: only in edit mode, and only 120 ms or more
      after the last accepted press, counted across a wrap of the millisecond clock. */
  predicate Accepts(editMode: bool, now: u32, lastBtnMs: u32)
    ensures Accepts(editMode, now, lastBtnMs) ==> editMode
    ensures now == lastBtnMs ==> !Accepts(editMode, now, lastBtnMs)
    ensures editMode && lastBtnMs <= now ==>
      (Accepts(editMode, now, lastBtnMs) <==> now - lastBtnMs >= DebounceMs)
    ensures editMode && now < lastBtnMs ==>
      (Accepts(editMode, now, lastBtnMs) <==> now + 0x1_0000_0000 - lastBtnMs >= DebounceMs)
  {
    editMode && Elapsed(now, lastBtnMs) >= DebounceMs
  }

  /** The four button levels of one tick (true = pressed, pin read LOW). */
  datatype Buttons = Buttons(up: bool, down: bool, left: bool, right: bool)

  datatype Press = Up | Down | Left | Right

  function IsPressed(b: Buttons, p: Press): bool
  {
    match p
    case Up => b.up
    case Down => b.down
    case Left => b.left
    case Right => b.right
  }

  /** Tie-break order: up, then down, then left, then right. */
  function Rank(p: Press): nat
  {
    match p
    case Up => 0
    case Down => 1
    case Left => 2
    case Right => 3
  }

  /** The one press a tick acts on: the pressed button of highest priority. */
  function Pick(b: Buttons): (p: Option<Press>)
    ensures p.None? <==> forall q :: !IsPressed(b, q)
    ensures p.Some? ==> IsPressed(b, p.value) && forall q :: Rank(q) < Rank(p.value) ==> !IsPressed(b, q)
  {
    if b.up then assert IsPressed(b, Up); Some(Up)
    else if b.down then assert IsPressed(b, Down); Some(Down)
    else if b.left then assert IsPressed(b, Left); Some(Left)
    else if b.right then assert IsPressed(b, Right); Some(Right)
    else None
  }

  /** The menu's state that tick reads and writes, together with the caller's settings. */
  datatype Machine = Machine(cursor: int, lastBtnMs: u32, settings: Settings)

  predicate ValidMachine(m: Machine)
  {
    0 <= m.cursor < ItemsCount
  }

  /** The inputs of one tick: the clock, the edit-mode flag and the buttons. */
  datatype TickInput = TickInput(now: u32, editMode: bool, buttons: Buttons)

  datatype StepResult = StepResult(next: Machine, changed: bool, notice: Option<Notice>)

  /** One tick's effect on cursor, settings and lastBtnMs, and its return value. */
  function Step(labels: ConfigLabels, m: Machine, t: TickInput): (r: StepResult)
    requires ValidMachine(m)
    ensures ValidMachine(r.next)
    ensures r.changed <==> Accepts(t.editMode, t.now, m.lastBtnMs) && Pick(t.buttons).Some?
    ensures !r.changed ==> r.next == m && r.notice.None?
    ensures r.changed ==> r.next.lastBtnMs == t.now
    ensures r.next.settings.vrxMode == m.settings.vrxMode
    ensures Pick(t.buttons) == Some(Up) && r.changed ==>
      r.next.cursor == PrevIndex(m.cursor) && r.next.settings == m.settings && r.notice.None?
    ensures Pick(t.buttons) == Some(Down) && r.changed ==>
      r.next.cursor == NextIndex(m.cursor) && r.next.settings == m.settings && r.notice.None?
    ensures Pick(t.buttons) == Some(Left) && r.changed ==>
      r.next.cursor == m.cursor && Edit(r.next.settings, r.notice) == LeftEdit(m.settings, ItemAt(m.cursor))
    ensures Pick(t.buttons) == Some(Right) && r.changed ==>
      r.next.cursor == m.cursor && Edit(r.next.settings, r.notice) == RightEdit(labels, m.settings, ItemAt(m.cursor))
  {
    if !Accepts(t.editMode, t.now, m.lastBtnMs) then StepResult(m, false, None)
    else match Pick(t.buttons)
      case None => StepResult(m, false, None)
      case Some(p) => Act(labels, m, p, t.now)
  }

  /** What an accepted press does: up and down move the cursor, left and right edit; lastBtnMs becomes now. */
  function Act(labels: ConfigLabels, m: Machine, p: Press, now: u32): (r: StepResult)
    requires ValidMachine(m)
    ensures ValidMachine(r.next) && r.changed && r.next.lastBtnMs == now
    ensures p == Up || p == Down ==> r.next.settings == m.settings && r.notice.None?
    ensures p == Left || p == Right ==> r.next.cursor == m.cursor
  {
    match p
    case Up => StepResult(m.(cursor := PrevIndex(m.cursor), lastBtnMs := now), true, None)
    case Down => StepResult(m.(cursor := NextIndex(m.cursor), lastBtnMs := now), true, None)
    case Left =>
      var e := LeftEdit(m.settings, ItemAt(m.cursor));
      StepResult(m.(settings := e.after, lastBtnMs := now), true, e.notice)
    case Right =>
      var e := RightEdit(labels, m.settings, ItemAt(m.cursor));
      StepResult(m.(settings := e.after, lastBtnMs := now), true, e.notice)
  }

  /** Where a run of ticks ends, and how many of them reported a change. */
  datatype RunResult = RunResult(final: Machine, accepted: nat)

  function Run(labels: ConfigLabels, m: Machine, ts: seq<TickInput>): (r: RunResult)
    requires ValidMachine(m)
    ensures ValidMachine(r.final)
    ensures r.accepted <= |ts|
    decreases |ts|
  {
    if ts == [] then RunResult(m, 0)
    else
      var s := Step(labels, m, ts[0]);
      var rest := Run(labels, s.next, ts[1..]);
      RunResult(rest.final, rest.accepted + if s.changed then 1 else 0)
  }

  /** A press less than 120 ms after an accepted one is ignored. */
  lemma DebounceMerges(labels: ConfigLabels, m: Machine, a: TickInput, b: TickInput)
    requires ValidMachine(m)
    requires Step(labels, m, a).changed
    requires Elapsed(b.now, a.now) < DebounceMs
    ensures Step(labels, Step(labels, m, a).next, b) == StepResult(Step(labels, m, a).next, false, None)
  {
  }

  /** A press 120 ms or more after an accepted one, in edit mode, is accepted too. */
  lemma DebounceSeparates(labels: ConfigLabels, m: Machine, a: TickInput, b: TickInput)
    requires ValidMachine(m)
    requires Step(labels, m, a).changed
    requires b.editMode && Pick(b.buttons).Some? && Elapsed(b.now, a.now) >= DebounceMs
    ensures Step(labels, Step(labels, m, a).next, b).changed
  {
  }

  /** Outside edit mode a tick changes nothing, whatever the buttons. */
  lemma FrozenOutsideEditMode(labels: ConfigLabels, m: Machine, ts: seq<TickInput>)
    requires ValidMachine(m)
    requires forall i :: 0 <= i < |ts| ==> !ts[i].editMode
    ensures Run(labels, m, ts) == RunResult(m, 0)
  {
    QuietRun(labels, m, ts);
  }

  /** Ticks that all fall inside the debounce window of the last accepted press change nothing. */
  lemma {:induction false} QuietRun(labels: ConfigLabels, m: Machine, ts: seq<TickInput>)
    requires ValidMachine(m)
    requires forall i :: 0 <= i < |ts| ==> !Accepts(ts[i].editMode, ts[i].now, m.lastBtnMs)
    ensures Run(labels, m, ts) == RunResult(m, 0)
    decreases |ts|
  {
    if ts != [] {
      QuietRun(labels, m, ts[1..]);
    }
  }

  /** Outside 5.8G mode no run of ticks changes the band. */
  lemma {:induction false} BandFrozenOutside58(labels: ConfigLabels, m: Machine, ts: seq<TickInput>)
    requires ValidMachine(m) && m.settings.vrxMode != 1
    ensures Run(labels, m, ts).final.settings.vrxband == m.settings.vrxband
    ensures Run(labels, m, ts).final.settings.vrxMode == m.settings.vrxMode
    decreases |ts|
  {
    if ts != [] {
      var s := Step(labels, m, ts[0]);
      assert s.next.settings.vrxband == m.settings.vrxband;
      BandFrozenOutside58(labels, s.next, ts[1..]);
    }
  }

  /** No run of ticks moves an in-range value out of [0, count). */
  lemma {:induction false} RunKeepsInRange(labels: ConfigLabels, m: Machine, ts: seq<TickInput>, it: ConfigItem)
    requires ValidMachine(m) && Field(m.settings, it) < Limit(labels, it)
    ensures Field(Run(labels, m, ts).final.settings, it) < Limit(labels, it)
    decreases |ts|
  {
    if ts != [] {
      var s := Step(labels, m, ts[0]);
      assert Field(s.next.settings, it) < Limit(labels, it);
      RunKeepsInRange(labels, s.next, ts[1..], it);
    }
  }
}
