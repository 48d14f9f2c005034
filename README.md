# UTFT configuration menu and telemetry dashboard, in Dafny

This project models the two state machines behind an Arduino ground-station
display built on the UTFT library.

**`ConfigUI_UTFT`** is a four-item configuration menu: video band, channel,
recording and video bypass.
- **Cursor.** Up and down move the cursor modulo four.
- **Edits.** Left and right edit the selected field of a caller-owned
  `ConfigState`. They stop at 0 and at `count - 1`. The band is editable only
  in 5.8G mode.
- **Callbacks.** Record and bypass edits call optional callbacks.
- **Labels.** Values are shown through clamped lookups in caller-supplied
  label tables.
- **`tick`.** It draws a pending full frame. It then acts on the buttons only
  in edit mode, and only when 120 ms have passed since the last accepted
  press on the wrapping millisecond clock. Simultaneous presses are resolved
  up > down > left > right.

**`DisplayUI_UTFT`** is the telemetry dashboard. It caches the last
`UIData` snapshot it drew. On each `render` it compares the new snapshot
field by field, redraws only the blocks that changed, and updates the cache.

The model has six files:
- `common.dfy`: C's fixed-width integers, its division that truncates toward
  zero, and the uint16 wrap.
- `cstrings.dfy`: NUL-terminated text and `strncpy` into a fixed buffer.
- `config_model.dfy`: the menu's pure logic. One tick is the function `Step`
  and a run of ticks is `Run`.
- `config_ui.dfy`: the menu object as a class.
- `dashboard_model.dfy`: the dashboard's pure logic.
- `display_ui.dfy`: the dashboard object as a class.

Drawing is recorded in ghost logs (`draws`, `drawn`). Callback calls are
recorded in the ghost log `notified`. The display size, the button levels and
the clock are parameters.

## Model

| member | source | states |
|---|---|---|
| ConfigModel.ItemIndex | ConfigUI_UTFT.h:12-18 | every item's number is below CFG_ITEMS_COUNT |
| ConfigModel.ItemAt | ConfigUI_UTFT.h:12-18 | cursor positions 0..3 name the four items, and `ItemIndex` inverts it |
| ConfigModel.ItemNumbering | ConfigUI_UTFT.h:12-18 | there are exactly four items: every item's number maps back to it |
| ConfigModel.NameOf | ConfigUI_UTFT.cpp:164-168 | `nameOf` gives the item's name below CFG_ITEMS_COUNT and "" past it |
| ConfigModel.NamesDistinct | ConfigUI_UTFT.cpp:165 | the four item names are pairwise different |
| ConfigModel.PrevIndex | ConfigUI_UTFT.cpp:172 | the row above the cursor is in [0,4), differs from the cursor, and the next row after it is the cursor |
| ConfigModel.NextIndex | ConfigUI_UTFT.cpp:183 | the row below the cursor is in [0,4) and differs from the cursor |
| ConfigModel.PrevUndoesNext | ConfigUI_UTFT.cpp:263-267 | moving down then up returns to the same item |
| ConfigModel.DownMovesCycle | ConfigUI_UTFT.cpp:266-267 | k presses of down land on (c + k) mod 4 |
| ConfigModel.CursorCycleExamples | ConfigUI_UTFT.cpp:262-267 | four downs return to the start; up from item 0 selects item 3 |
| ConfigModel.ClampIndex | ConfigUI_UTFT.cpp:142 | the uint8 clamp keeps in-range indices, lowers others to count-1, and with count 0 wraps to 255 |
| ConfigModel.TableLookup | ConfigUI_UTFT.cpp:142-143 | a null table gives null; otherwise the clamped entry is read: past the array the read is flagged, inside it the result is the entry's text, or null exactly when the entry is null |
| ConfigModel.ReadableMeansInBounds | ConfigUI_UTFT.cpp:136-151 | a table is readable exactly when no uint8 index makes the lookup read past its array |
| ConfigModel.CountedTableReadable | ConfigUI_UTFT.cpp:142-143 | a table whose count is positive and at most its length is always read in bounds |
| ConfigModel.EmptyCountWraps | ConfigUI_UTFT.cpp:142-143 | with count 0, every lookup in a shorter non-null array reads index 255, past its end |
| ConfigModel.ValueForItem | ConfigUI_UTFT.cpp:132-155 | the band reads "N/A" outside 5.8G mode; otherwise each item reads its own table at its own field; readable tables are never overrun |
| ConfigModel.ShownValue | ConfigUI_UTFT.cpp:126-127 | a null value becomes "--"; a label is shown as is |
| ConfigModel.UnlabelledValues | ConfigUI_UTFT.h:107 | the value-initialised `labels_{}` (null arrays, zero counts) is readable, shows "--" for every editable item and "N/A" for the band outside 5.8G mode |
| ConfigModel.Shown | ConfigUI_UTFT.cpp:128-129 | a 24-byte buffer shows the prefix of the value's text that is exactly min(strlen, 23) characters long |
| ConfigModel.LeftEdit | ConfigUI_UTFT.cpp:190-213 | applyLeft lowers only the field under the cursor, never below 0, and the band only in 5.8G mode; it notifies exactly when record or bypass actually decreased, with the new value |
| ConfigModel.RightEdit | ConfigUI_UTFT.cpp:215-240 | applyRight raises only the field under the cursor, only while value+1 < count, and the band only in 5.8G mode; an in-range value stays in range; record and bypass notify whenever their count is non-zero, even when saturated |
| ConfigModel.RightUndoesLeft | ConfigUI_UTFT.cpp:190-240 | a right press undoes a left press that moved an in-range value |
| ConfigModel.LeftUndoesRight | ConfigUI_UTFT.cpp:190-240 | a left press undoes a right press that moved the value |
| ConfigModel.LeftPressesSaturate | ConfigUI_UTFT.cpp:190-213 | k left presses give max(v - k, 0) and leave the other fields alone |
| ConfigModel.RightPressesSaturate | ConfigUI_UTFT.cpp:215-240 | k right presses give min(v + k, count - 1) and leave the other fields alone |
| ConfigModel.ChannelStaysAtTop | ConfigUI_UTFT.cpp:222-226 | with 8 channels, right presses on channel 7 keep it at 7 |
| ConfigModel.Elapsed | ConfigUI_UTFT.cpp:256 | `now - lastBtnMs` on a 32-bit unsigned long is the time since the last press, across clock wrap-around |
| ConfigModel.Accepts | ConfigUI_UTFT.cpp:253-256 | tick looks at the buttons only in edit mode and only 120 ms or more after the last accepted press, counted across a wrap of the 32-bit clock; never again in the same millisecond |
| ConfigModel.Pick | ConfigUI_UTFT.cpp:262-278 | tick acts on no button iff none is pressed, else on the pressed one of highest priority up > down > left > right |
| ConfigModel.Step | ConfigUI_UTFT.cpp:242-282 | one tick changes something iff it is in edit mode, past the debounce and a button is pressed. If it does not, nothing changes. If it does, lastBtnMs becomes now and the cursor or settings move as the picked button says: up and down move only the cursor and notify nothing, left and right edit via LeftEdit/RightEdit |
| ConfigModel.Act | ConfigUI_UTFT.cpp:262-280 | an accepted press always reports a change and stamps lastBtnMs with now; up and down move only the cursor and notify nothing; left and right keep the cursor and edit the settings |
| ConfigModel.Run | ConfigUI_UTFT.cpp:242-282 | a run of ticks keeps the cursor in range and reports at most one change per tick |
| ConfigModel.DebounceMerges | ConfigUI_UTFT.cpp:256 | a tick less than 120 ms after an accepted press changes nothing |
| ConfigModel.DebounceSeparates | ConfigUI_UTFT.cpp:256 | a press 120 ms or more after an accepted press, in edit mode, is accepted |
| ConfigModel.FrozenOutsideEditMode | ConfigUI_UTFT.cpp:253 | any run of ticks outside edit mode changes nothing and reports no change |
| ConfigModel.QuietRun | ConfigUI_UTFT.cpp:253-256 | ticks that all fail the edit-mode or debounce gate change nothing |
| ConfigModel.BandFrozenOutside58 | ConfigUI_UTFT.cpp:192-196 | outside 5.8G mode no run of ticks changes the band or the mode |
| ConfigModel.RunKeepsInRange | ConfigUI_UTFT.cpp:219-235 | no run of ticks moves an in-range field out of [0, count) |
| CInts.TruncDiv | ConfigUI_UTFT.cpp:95 | C int division: the remainder is smaller than the divisor and has the dividend's sign |
| CInts.TruncDivExact | DisplayUI_UTFT.cpp:5 | dividing an exact multiple gives the factor back |
| CInts.WrapU16 | ConfigUI_UTFT.cpp:95 | storing an int into uint16_t keeps it modulo 2^16, unchanged when in range |
| CStrings.CLen | ConfigUI_UTFT.cpp:122-129 | strlen: no NUL before the length, and a NUL at it when inside the buffer |
| CStrings.TerminatedCopy | ConfigUI_UTFT.cpp:122-123 | after strncpy and `buf[n-1] = 0` the buffer has n slots and is NUL-terminated |
| CStrings.TerminatedCopyText | ConfigUI_UTFT.cpp:128-129 | a reader of the buffer sees the source text cut to n-1 characters |
| CStrings.CopyTerminated | ConfigUI_UTFT.cpp:128-129 | the copy loop and terminator leave exactly TerminatedCopy in the buffer |
| ConfigScreen.Deliver | ConfigUI_UTFT.cpp:201-210 | an edit's notice makes exactly one call, to the matching callback (onRecChanged for a record change, onBypassChanged for a bypass change) with that notice, and none when that callback is null or there is no notice |
| ConfigScreen.FrameHeight | ConfigUI_UTFT.cpp:92-93 | the block height is 216, cut down to the screen height |
| ConfigScreen.FrameTop | ConfigUI_UTFT.cpp:94 | Y_ centres the block and keeps Y + totalH <= scrH |
| ConfigScreen.FrameLeft | ConfigUI_UTFT.cpp:95 | X_ centres the block and keeps it on screen when W <= scrW; with a 32-bit `int`, a wider block's negative offset -(W - scrW)/2 wraps in uint16_t to 65536 - (W - scrW)/2 |
| ConfigScreen.WideBlockWraps | ConfigUI_UTFT.cpp:95 | with a 32-bit `int`, a 440-pixel block on a 320-pixel screen puts X_ at 65476 |
| ConfigScreen.TruncHalf | ConfigUI_UTFT.cpp:95 | C's halving on int rounds toward zero: a / 2 for a >= 0 and -((-a) / 2) below zero |
| ConfigScreen.NameFitsBuffer | ConfigUI_UTFT.cpp:120-123 | every item name fits a 24-byte label buffer whole |
| ConfigScreen.FrameDraws | ConfigUI_UTFT.cpp:86-111 | drawFrame fills the whole screen, draws the title bar at (X_, Y_), then three placeholder rows, dim/bright/dim, the first 12 pixels below the title bar, spaced rowH + rowGap apart, the last ending exactly at the bottom of the block |
| ConfigScreen.RenderDraws | ConfigUI_UTFT.cpp:157-186 | render draws three rows at X_ and width W_: the previous item dimmed at Y_ + 52, the cursor's item with its value as the 24-byte buffer shows it, the next item dimmed, each row rowH + 10 below the one before; the three rows name three different items |
| ConfigScreen.RenderOverlaysFrame | ConfigUI_UTFT.cpp:105-111 | render's rows land exactly on the three rows drawFrame laid out |
| ConfigScreen.ConfigState.constructor | ConfigUI_UTFT.h:21-27 | the caller's record holds the given settings |
| ConfigScreen.ConfigUI.constructor | ConfigUI_UTFT.h:90-113 | a fresh menu has cursor 0, a pending full redraw, lastBtnMs 0, a 480x320 screen, null labels and callbacks |
| ConfigScreen.ConfigUI.Begin | ConfigUI_UTFT.cpp:30-50 | begin stores size, pins, labels and geometry and asks for a full redraw |
| ConfigScreen.ConfigUI.SetCallbacks | ConfigUI_UTFT.h:53-55 | both callbacks are replaced and nothing else changes |
| ConfigScreen.ConfigUI.ForceRedraw | ConfigUI_UTFT.h:56 | only the redraw flag is set |
| ConfigScreen.ConfigUI.ResetCursor | ConfigUI_UTFT.h:68 | only the cursor (to 0) and the redraw flag (to true) change |
| ConfigScreen.ConfigUI.SetScreenSize | ConfigUI_UTFT.h:69 | only scrW and scrH change |
| ConfigScreen.ConfigUI.DrawFrame | ConfigUI_UTFT.cpp:85-114 | drawFrame centres the block inside the screen, draws the chrome and clears the redraw flag |
| ConfigScreen.ConfigUI.ComputeCurrentStrings | ConfigUI_UTFT.cpp:116-130 | both buffers hold the NUL-terminated name and value (or "--") of the cursor's item |
| ConfigScreen.ConfigUI.Render | ConfigUI_UTFT.cpp:157-186 | render appends exactly RenderDraws for the current cursor and settings |
| ConfigScreen.ConfigUI.ApplyLeft | ConfigUI_UTFT.cpp:190-213 | the record is changed in place as LeftEdit says and its notice is delivered |
| ConfigScreen.ConfigUI.ApplyRight | ConfigUI_UTFT.cpp:215-240 | the record is changed in place as RightEdit says and its notice is delivered |
| ConfigScreen.ConfigUI.Tick | ConfigUI_UTFT.cpp:242-282 | tick draws a pending frame and clears the flag, then does what Step says; nothing changes when gated |
| ConfigScreen.ConfigUI.HandleInput | ConfigUI_UTFT.cpp:252-281 | the gates and prioritised buttons of tick move the cursor, settings and lastBtnMs as Step says and redraw on a change; a gated tick changes nothing |
| ConfigScreen.ConfigUI.ActOn | ConfigUI_UTFT.cpp:262-280 | one accepted press changes cursor, settings and lastBtnMs as Act says, delivers its notice and redraws the three rows |
| ConfigScreen.ConfigUI.RedrawIfPending | ConfigUI_UTFT.cpp:246-250 | a pending full redraw draws the centred frame and the rows, then clears the flag; otherwise nothing is drawn or moved |
| ConfigScreen.ConfigUI.CurrentRowText | ConfigUI_UTFT.cpp:175-179 | the middle row reads back from its 24-byte buffers as the whole item name and the shown value cut to 23 characters |
| DashboardModel.Imap | DisplayUI_UTFT.cpp:4-6 | imap maps in_min to out_min and in_max to out_max |
| DashboardModel.ImapInRange | DisplayUI_UTFT.cpp:4-6 | on an increasing map, inputs in range give outputs in range |
| DashboardModel.Clamp | DisplayUI_UTFT.h:75 | with lo <= hi the result is in [lo, hi]: a value below lo is raised to lo, one above hi lowered to hi, one in range unchanged; with lo > hi the result is hi |
| DashboardModel.VoltageToPercent | DisplayUI_UTFT.cpp:8-14 | the battery percentage is always in 0..100 |
| DashboardModel.PercentExamples | DisplayUI_UTFT.cpp:8-14 | 16.8 V on 4 cells is 100 %, 12.0 V is 0 % |
| DashboardModel.VoltageMoved | DisplayUI_UTFT.cpp:162 | the voltage counts as moved exactly when it differs by more than 0.05 V either way |
| DashboardModel.BatteryLevel | DisplayUI_UTFT.cpp:111 | OK iff percent >= 60, WARN iff 25..59, BAD iff below 25 |
| DashboardModel.BatteryGauge | DisplayUI_UTFT.cpp:110-113 | the fill is 0..46 wide for 0..100 %; a remainder is drawn iff the fill is short of 46, and fill plus remainder is 46 |
| DashboardModel.RssiThreshold | DisplayUI_UTFT.cpp:193 | `PoorSignal` is a threshold: 29 dB is poor, 30 dB is not, and any signal weaker than a poor one is poor |
| DashboardModel.FrameDraws | DisplayUI_UTFT.cpp:71-89 | drawFrame clears the whole screen, then draws the frame with its seven captions |
| DashboardModel.BandCell | DisplayUI_UTFT.cpp:181-182 | a band character of 0 shows "--", any other shows that letter |
| DashboardModel.ControlCell | DisplayUI_UTFT.cpp:198 | a null control pointer shows "--", any other shows the text it points to |
| DashboardModel.RecCell | DisplayUI_UTFT.cpp:202 | the REC cell reads "REC" exactly while recording and "STOP" otherwise |
| DashboardModel.BypassCell | DisplayUI_UTFT.cpp:206 | the V_BYPASS cell reads "ON" exactly while bypassing and "OFF" otherwise |
| DashboardModel.HeaderStale | DisplayUI_UTFT.cpp:162 | a changed cell count always makes the header stale; a stale header has a changed count or voltage; a drift of at most 0.05 V on the same count does not |
| DashboardModel.HeaderBar | DisplayUI_UTFT.cpp:91-119 | the header card is w - 16 wide with the battery box 180 pixels from the right edge, shows the given voltage and percent, and fills the icon with BatteryGauge(percent), within 0..46 pixels for 0..100 % |
| DashboardModel.HeaderDraw | DisplayUI_UTFT.cpp:165-166 | the header is drawn w - 16 wide with the battery box 180 pixels from the right edge, the snapshot's voltage, its percent in 0..100 and that percent's gauge |
| DashboardModel.HeaderCheck | DisplayUI_UTFT.cpp:162-167 | the header block fires exactly when the header is stale and draws HeaderDraw |
| DashboardModel.FreqCheck | DisplayUI_UTFT.cpp:170-174 | row 0 "VRX" fires exactly when the frequency differs from the cache and shows it in MHz, never highlighted |
| DashboardModel.BandCheck | DisplayUI_UTFT.cpp:180-185 | row 2 "BAND" fires exactly when the band letter differs and shows BandCell, never highlighted |
| DashboardModel.ChannelCheck | DisplayUI_UTFT.cpp:186-190 | row 3 "CHANNEL" fires exactly when the channel differs and shows the number, never highlighted |
| DashboardModel.RssiCheck | DisplayUI_UTFT.cpp:191-196 | row 4 "RSSI" fires exactly when the RSSI differs and shows it in dB, highlighted exactly below 30 dB |
| DashboardModel.ControlCheck | DisplayUI_UTFT.cpp:197-200 | row 5 "CONTROL" fires exactly when the control pointer differs and shows ControlCell, never highlighted |
| DashboardModel.RecCheck | DisplayUI_UTFT.cpp:201-204 | row 6 "REC" fires exactly when the recording flag differs and is highlighted exactly while recording |
| DashboardModel.BypassCheck | DisplayUI_UTFT.cpp:205-208 | row 6 "V_BYPASS" fires exactly when the bypass flag differs and is highlighted exactly while bypassing |
| DashboardModel.AzimuthCheck | DisplayUI_UTFT.cpp:209-212 | the compass fires exactly when the azimuth differs and draws it |
| DashboardModel.RenderChecks | DisplayUI_UTFT.cpp:162-212 | render makes nine comparisons: the header first, then the value rows top to bottom, never row 1, then the compass; none of them redraws the background or the frame |
| DashboardModel.Redraws | DisplayUI_UTFT.cpp:160-213 | render draws at most nine blocks and never the background or the frame |
| DashboardModel.Cached | DisplayUI_UTFT.cpp:160-213 | after render the cache holds the snapshot's compared fields; the voltage only when the header was redrawn; the control pointer only when it changed; vrx untouched |
| DashboardModel.RenderLogIsRedraws | DisplayUI_UTFT.cpp:160-213 | logging render's checks one by one appends exactly Redraws |
| DashboardModel.NothingDrawnIffMatches | DisplayUI_UTFT.cpp:160-213 | render draws nothing iff every compared field equals the cache |
| DashboardModel.RowOneNeverDrawn | DisplayUI_UTFT.cpp:170-179 | the "VIDEO" row 1 is never drawn: the second frequency check always sees the updated cache |
| DashboardModel.MatchingRenderKeepsCache | DisplayUI_UTFT.cpp:160-213 | a render that finds nothing changed leaves the cache as it was |
| DashboardModel.RenderTwiceDrawsNothing | DisplayUI_UTFT.cpp:160-213 | rendering the same snapshot again draws nothing and leaves the cache unchanged |
| DashboardModel.RssiRowHighlight | DisplayUI_UTFT.cpp:191-196 | a changed RSSI redraws row 4, highlighted exactly below 30 dB |
| DashboardModel.RecAndBypassShareRow | DisplayUI_UTFT.cpp:201-208 | when both change, REC and then V_BYPASS are drawn one after the other on the same row 6 |
| DashboardModel.FirstRenderDrawsHeader | DisplayUI_UTFT.h:46 | the -999 V sentinel makes the first render draw the header for any voltage of at least 0 V |
| DashboardModel.FirstRenderDrawsCompass | DisplayUI_UTFT.h:46 | the -999 sentinel makes the first render draw the compass for any azimuth in 0..359 |
| DashboardModel.FirstRenderSkipsZeroFrequency | DisplayUI_UTFT.h:46 | the initial 0 MHz in the cache makes a first render of 0 MHz skip row 0 |
| DashboardModel.SameControlPointerNotRedrawn | DisplayUI_UTFT.cpp:197-200 | control is compared as a pointer: new text behind the same pointer is not redrawn |
| DashboardModel.ScreenSize | DisplayUI_UTFT.cpp:62 | landscape (non-zero) gives exactly 480x320 and portrait exactly 320x480: the same 480*320 area, wider than tall iff landscape |
| DashboardScreen.DisplayUI.constructor | DisplayUI_UTFT.h:37-46 | a fresh dashboard is 480x320 with the sentinel cache |
| DashboardScreen.DisplayUI.Begin | DisplayUI_UTFT.cpp:54-69 | begin picks the size, seeds last_.cells, clears the screen and draws the frame |
| DashboardScreen.DisplayUI.DrawFrame | DisplayUI_UTFT.cpp:71-89 | drawFrame appends the background and the frame for the current size |
| DashboardScreen.DisplayUI.SetCells | DisplayUI_UTFT.h:34 | only last_.cells changes |
| DashboardScreen.DisplayUI.DrawHeaderBar | DisplayUI_UTFT.cpp:91-119 | drawHeaderBar draws exactly HeaderBar for the screen width, voltage and percent |
| DashboardScreen.DisplayUI.Render | DisplayUI_UTFT.cpp:160-213 | render leaves the cache as Cached says and appends exactly Redraws |
| DashboardScreen.DisplayUI.RenderHeader | DisplayUI_UTFT.cpp:162-167 | the header block redraws and updates voltage and cells when the voltage moved or the cell count changed |
| DashboardScreen.DisplayUI.RenderLinkRows | DisplayUI_UTFT.cpp:169-196 | the frequency (both checks), band, channel and RSSI blocks log their checks in order and update their fields |
| DashboardScreen.DisplayUI.RenderStatusRows | DisplayUI_UTFT.cpp:197-212 | the control, REC, V_BYPASS and azimuth blocks log their checks in order and update their fields |

## Left out

- Default arguments. C++ default arguments are explicit parameters in the model: the menu `begin`'s `startY = 64` and `blockW = 440`, the dashboard `begin`'s `landscape = 1` and `cells = 4`, and the menu `drawFrame`'s title "CONFIGURATION MODE" (the constant `Title`, which tick passes).
- Pixel output. UTFT drawing, fonts, colours and the rounded-rectangle compositions are not modelled. Each drawn block is a value in a ghost log.
- GPIO and the clock. `pinMode`, `digitalRead` and `millis` are left out. The pressed/released level of each button and the current time are parameters of `tick`.
- Callbacks. The function-pointer callbacks are modelled only as identities. A call is an entry in the `notified` log.
- `drawTitle` is never called and only draws, so it is not modelled.
- Text formatting. The `snprintf` and `dtostrf` output of the dashboard is not modelled. Numbers are kept as a number and a unit suffix.
- The compass needle. `drawAzimuthCard`'s cos/sin needle position is not modelled; the card is a `Compass(degrees)` entry.
- DashboardModel.VoltageToPercent: computed over exact reals, not 32-bit floats, so float rounding at the 0.05 V threshold and at the `+0.5` rounding is not captured.
- DashboardModel.Imap: computes on unbounded integers, so an overflow of `(x - in_min) * (out_max - out_min)` in C `int` is not modelled. The only call multiplies a percent in 0..100 by 46. That product is at most 4600, which fits a 16-bit and a 32-bit `int` alike.
- ConfigScreen.FrameLeft: takes C `int` as 32 bits wide. Then `scrW_ - W_` is a signed `int`, so a block wider than the screen gives a negative X_ that wraps to 65476 for 440 on 320 (WideBlockWraps). With a 16-bit `int` (AVR boards), the two `uint16_t` operands promote to `unsigned int` instead. The difference then wraps before the division, and the same case gives 32708. The two widths agree whenever the block fits the screen.
- ConfigScreen.ConfigUI.Render: requires `LabelsReadable(labels)`, that is, all four label tables are readable (a table with count 0 and a shorter array would be read past its end). The source reads only the cursor's table on one render, so this is stronger than one call needs. ConfigScreen.ConfigUI.Tick, ConfigScreen.ConfigUI.HandleInput, ConfigScreen.ConfigUI.ActOn, ConfigScreen.ConfigUI.RedrawIfPending, ConfigScreen.ConfigUI.ComputeCurrentStrings and ConfigScreen.ConfigUI.CurrentRowText inherit the same requirement. The model flags such reads as `OutOfBounds` in `TableLookup` instead of modelling the memory they would read.
- ConfigModel.ValueForItem: the `default: return nullptr` branch is unreachable, because the four items cover the enum, so it is left out.
- A null entry inside a non-null label table is modelled (it shows "--"). Its pointer identity is not.
- The `tft_` pointer is not modelled, and neither is calling `render` or `tick` before `begin`, which would dereference it while null.
- ConfigScreen.ConfigUI.Tick: its body is verified as consecutive methods. `RedrawIfPending` is the pending-frame block. `HandleInput` holds the gates and the button chain. `ActOn` is one branch of that chain. Together they follow tick's body in order. `ActOn` stamps lastBtnMs itself, which is the same as tick's final `if (changed)` store.
- ConfigScreen.ConfigUI.Render: the middle row's buffers are filled and read back in the separate method `CurrentRowText`.
- DashboardScreen.DisplayUI.Render: its straight-line body is verified as three consecutive methods (header, link rows, status rows). `RenderLinkRows` works on a local copy of the cache and stores it back at its end. Nothing in between reads the cache, so the effect is the same. The two row methods take the cache as it was when render began as a ghost argument, because their checks compare only fields the earlier parts leave alone.
- The dashboard's geometry beyond the header width and battery position (row y-coordinates, card sizes) is not modelled.
- The cursor is a mathematical integer kept in 0..3, not an `int8_t`. The model proves it never leaves that range, so the narrower type is never exceeded.
