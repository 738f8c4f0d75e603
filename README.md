# OK Watch Face — a Dafny model of the engine's scheduling and the layout tables

This project models the non-drawing core of the "This Is Time" Wear OS watch
face (package `com.github.pvoid.okwatchface`), in two parts.

**The engine** (`ThisIsWatchFace.Engine`, module `WatchFace` in
`watchface.dfy`) is a class. Its fields are the host's visibility, the
`mAmbient` flag, the `mRegisteredTimeZoneReceiver` flag, the pending messages
of the update handler, a count of `invalidate()` requests and a ghost log of
the platform register/unregister calls. Its methods are:

- the lifecycle callbacks: `onVisibilityChanged`, `onAmbientModeChanged`,
  `onDestroy`, `onTimeTick` and the time-zone receiver;
- the helpers `registerReceiver`, `unregisterReceiver`, `updateTimer` and
  `handleUpdateTimeMessage`;
- the handler delivering a message.

Each method's postcondition gives the complete new state. The object
invariant `Valid()` says that the register and unregister calls alternate,
starting with a register, and that the flag is set exactly when the last
call was a register. The same module holds three pure parts:

- the rescheduling delay `30000 - t % 30000`, with Kotlin's truncating `%`;
- the hour and minute strings that `drawWatchFace` draws;
- the week-day index and the displayed month that go into the title.

The standard-library behaviour these strings rely on (`Int.toString()`,
`padStart`) is in module `KotlinText` (`text.dfy`). The handler's queue is in
module `MessageQueue` (`handler.dfy`): a sequence of messages, each with a
`what` code and the delay it was sent with.

**The style tables** (`ThisIsConfiguration.kt`, module `Configuration` in
`configuration.dfy`) are datatypes and constant functions:

- the two style keys and `AmbientModeType`;
- the four complication slots, each with its id, accepted types and bounds;
- the five layout presets, each with its id, title, icon and enabled slots.

Bounds are whole hundredths of the face (`0.76f` is `76`). The lemmas state
what the tables are built to satisfy: distinct ids, no slot listed twice in a
layout, containment between layouts, boxes that lie inside the face and are
square, and slots enabled together that never overlap.

## Model

| member | source | states |
|---|---|---|
| `KotlinText.Digits` | app/src/main/java/com/github/pvoid/okwatchface/ThisIsWatchFace.kt:194 | the decimal digits of a natural number: at least one, all digits, no leading zero, and exactly one digit iff the number is below ten |
| `KotlinText.IntToString` | app/src/main/java/com/github/pvoid/okwatchface/ThisIsWatchFace.kt:194 | `Int.toString()` is never empty; it is all digits iff the value is non-negative and starts with `-` iff it is negative |
| `KotlinText.PadStart` | app/src/main/java/com/github/pvoid/okwatchface/ThisIsWatchFace.kt:198 | `padStart(length, c)` is `length` long or as long as `s`, whichever is longer; it ends with `s`, and everything before `s` is `c` |
| `KotlinText.DigitsRoundTrip` | app/src/main/java/com/github/pvoid/okwatchface/ThisIsWatchFace.kt:194 | reading the digits of `n` back as a decimal gives `n` |
| `KotlinText.IntToStringRoundTrip` | app/src/main/java/com/github/pvoid/okwatchface/ThisIsWatchFace.kt:194 | for every integer, `ParseInt(IntToString(n)) == Some(n)` |
| `KotlinText.IntToStringInjective` | app/src/main/java/com/github/pvoid/okwatchface/ThisIsWatchFace.kt:194 | different integers have different numerals |
| `KotlinText.DigitsLength` | app/src/main/java/com/github/pvoid/okwatchface/ThisIsWatchFace.kt:198 | a numeral has at most two digits iff the number is below 100 |
| `MessageQueue.Count` | app/src/main/java/com/github/pvoid/okwatchface/ThisIsWatchFace.kt:247-249 | the number of pending messages with a code is at most the queue length; it is 0 iff no message has the code and the full length iff every message has it |
| `MessageQueue.RemoveMessages` | app/src/main/java/com/github/pvoid/okwatchface/ThisIsWatchFace.kt:133 | `removeMessages(what)` leaves no message with that code; the count of every other code is unchanged; the length drops by the number removed; nothing new appears |
| `MessageQueue.RemoveMessagesKeepsOthers` | app/src/main/java/com/github/pvoid/okwatchface/ThisIsWatchFace.kt:133 | every message with another code stays exactly as often as it was pending, and the kept messages are a subsequence of the old queue, so their order is unchanged |
| `MessageQueue.CountAppend` | app/src/main/java/com/github/pvoid/okwatchface/ThisIsWatchFace.kt:269 | sending a message adds one to the count of its own code and to no other |
| `MessageQueue.CountRemoveAt` | app/src/main/java/com/github/pvoid/okwatchface/ThisIsWatchFace.kt:44-51 | taking one message out of the queue removes one from the count of its code and from no other |
| `WatchFace.TruncRem` | app/src/main/java/com/github/pvoid/okwatchface/ThisIsWatchFace.kt:268 | Kotlin's `%` on a positive divisor lies in 0..b-1 for a non-negative dividend and in -(b-1)..0 for a negative one, and the dividend is the quotient truncated toward zero times the divisor plus the remainder |
| `WatchFace.UpdateDelayMs` | app/src/main/java/com/github/pvoid/okwatchface/ThisIsWatchFace.kt:268 | for a non-negative time the delay is in 1..30000, for a negative time it is in 30000..59999, and time plus delay is always a multiple of 30000 |
| `WatchFace.NextTickIsNextBoundary` | app/src/main/java/com/github/pvoid/okwatchface/ThisIsWatchFace.kt:268 | for a non-negative time, time plus delay is the smallest multiple of 30000 strictly after the time |
| `WatchFace.NegativeTimeSkipsBoundary` | app/src/main/java/com/github/pvoid/okwatchface/ThisIsWatchFace.kt:268 | for a negative time that is not a boundary, the truncating `%` makes the next tick land one boundary late: another boundary lies strictly in between |
| `WatchFace.WeekDayIndex` | app/src/main/java/com/github/pvoid/okwatchface/ThisIsWatchFace.kt:204 | DAY_OF_WEEK in 1..7 gives an index in 0..6, and the index is non-negative iff DAY_OF_WEEK is at least 1 |
| `WatchFace.DisplayedMonth` | app/src/main/java/com/github/pvoid/okwatchface/ThisIsWatchFace.kt:205 | MONTH in 0..11 is displayed as 1..12 |
| `WatchFace.HourText` | app/src/main/java/com/github/pvoid/okwatchface/ThisIsWatchFace.kt:194 | the hour is drawn unpadded: all digits exactly for a non-negative hour, and a single character exactly for 0..9 |
| `WatchFace.MinuteText` | app/src/main/java/com/github/pvoid/okwatchface/ThisIsWatchFace.kt:198 | the padded minute is at least two characters, exactly two for -9..99, all digits exactly for a non-negative minute, and starts with `-` for a negative one |
| `WatchFace.MinuteTextValue` | app/src/main/java/com/github/pvoid/okwatchface/ThisIsWatchFace.kt:198 | a non-negative minute's text, pad zero included, reads back as the minute |
| `WatchFace.DrawWatchFace` | app/src/main/java/com/github/pvoid/okwatchface/ThisIsWatchFace.kt:186-207 | nothing is drawn iff either text position is still 0; a failed week-day lookup draws only the three time texts |
| `WatchFace.MinuteTextIsTwoDigits` | app/src/main/java/com/github/pvoid/okwatchface/ThisIsWatchFace.kt:198 | for a minute below 100 the minute text is exactly two digits, the tens and then the units, and it reads back as the minute |
| `WatchFace.HourTextIsUnpadded` | app/src/main/java/com/github/pvoid/okwatchface/ThisIsWatchFace.kt:194 | the hour text reads back as the hour; it has one digit below ten and two from ten to 23, never with a leading zero |
| `WatchFace.DrawnTextsDenoteCalendar` | app/src/main/java/com/github/pvoid/okwatchface/ThisIsWatchFace.kt:186-207 | once laid out, with the calendar in range and a seven-entry week-day array, the draw does not fail and draws the separator, the hour text, the minute text and the title, with week day `DAY_OF_WEEK - 1` and month `MONTH + 1` in 1..12 |
| `WatchFace.DrawnTimeReadsBack` | app/src/main/java/com/github/pvoid/okwatchface/ThisIsWatchFace.kt:186-207 | on such a draw the hour text reads back as HOUR_OF_DAY, and the minute text is two digits that read back as MINUTE |
| `WatchFace.DrawFailsOnlyOutsideWeekDays` | app/src/main/java/com/github/pvoid/okwatchface/ThisIsWatchFace.kt:204 | once laid out, drawing fails exactly when DAY_OF_WEEK is outside 1..size of the week-day array |
| `WatchFace.Engine.ShouldTimerBeRunning` | app/src/main/java/com/github/pvoid/okwatchface/ThisIsWatchFace.kt:257-259 | the timer should run exactly when the face is visible and not ambient |
| `WatchFace.Engine.TimerArmedAsRequired` | app/src/main/java/com/github/pvoid/okwatchface/ThisIsWatchFace.kt:246-251 | the state `updateTimer` leaves: one pending update when the timer should run and none otherwise, and every pending update has delay 0 |
| `WatchFace.Engine.constructor` | app/src/main/java/com/github/pvoid/okwatchface/ThisIsWatchFace.kt:58-75 | a new engine is not visible, not ambient and not registered; it has nothing pending, no redraws and no platform calls, and satisfies the invariant |
| `WatchFace.Engine.RegisterReceiver` | app/src/main/java/com/github/pvoid/okwatchface/ThisIsWatchFace.kt:226-233 | afterwards the flag is set; the platform register call is logged only on a false-to-true change; the alternation invariant is kept |
| `WatchFace.Engine.UnregisterReceiver` | app/src/main/java/com/github/pvoid/okwatchface/ThisIsWatchFace.kt:235-241 | afterwards the flag is clear; the platform unregister call is logged only on a true-to-false change; the alternation invariant is kept |
| `WatchFace.Engine.UpdateTimer` | app/src/main/java/com/github/pvoid/okwatchface/ThisIsWatchFace.kt:246-259 | every old update message is removed; one zero-delay update is appended exactly when the engine is visible and not ambient, so afterwards there is one update or none |
| `WatchFace.Engine.HandleUpdateTimeMessage` | app/src/main/java/com/github/pvoid/okwatchface/ThisIsWatchFace.kt:264-271 | always one more redraw; exactly one update is appended, delayed by `UpdateDelayMs`, when the timer should run; otherwise the queue is unchanged |
| `WatchFace.Engine.Dispatch` | app/src/main/java/com/github/pvoid/okwatchface/ThisIsWatchFace.kt:44-51 | the delivered message leaves the queue; an update message goes on to `HandleUpdateTimeMessage` and any other is ignored; if at most one update was pending, at most one stays, and a delivered update keeps exactly one pending while the timer should run |
| `WatchFace.Engine.OnVisibilityChanged` | app/src/main/java/com/github/pvoid/okwatchface/ThisIsWatchFace.kt:210-224 | afterwards visible and registered both equal the argument and ambient is unchanged; showing the face redraws once; the timer is re-armed as `UpdateTimer` does; one register or unregister call is logged only when the flag changes |
| `WatchFace.Engine.OnAmbientModeChanged` | app/src/main/java/com/github/pvoid/okwatchface/ThisIsWatchFace.kt:142-146 | afterwards `mAmbient` equals the argument and the timer is re-armed as `UpdateTimer` does |
| `WatchFace.Engine.OnDestroy` | app/src/main/java/com/github/pvoid/okwatchface/ThisIsWatchFace.kt:132-135 | afterwards no update message is pending, and the other messages stay |
| `WatchFace.Engine.OnTimeTick` | app/src/main/java/com/github/pvoid/okwatchface/ThisIsWatchFace.kt:137-140 | the host's minute tick redraws once |
| `WatchFace.Engine.OnTimeZoneChanged` | app/src/main/java/com/github/pvoid/okwatchface/ThisIsWatchFace.kt:77-82 | a time-zone broadcast redraws once |
| `Configuration.ValuesAreComplete` | app/src/main/java/com/github/pvoid/okwatchface/ThisIsConfiguration.kt:16-98 | the `values()` lists name every slot and every layout, each once |
| `Configuration.SlotIdsDistinct` | app/src/main/java/com/github/pvoid/okwatchface/ThisIsConfiguration.kt:21-60 | the four slot ids are pairwise distinct and are 100, 200, 300 and 400 |
| `Configuration.StyleKeysDistinct` | app/src/main/java/com/github/pvoid/okwatchface/ThisIsConfiguration.kt:8-9 | the ambient and layout style keys differ |
| `Configuration.LayoutIdsDistinct` | app/src/main/java/com/github/pvoid/okwatchface/ThisIsConfiguration.kt:69-98 | the five layout ids are pairwise distinct, and so are their titles and their icons |
| `Configuration.SlotsAcceptTheSameTypes` | app/src/main/java/com/github/pvoid/okwatchface/ThisIsConfiguration.kt:23-58 | every slot accepts RANGED_VALUE, MONOCHROMATIC_IMAGE, SHORT_TEXT and SMALL_IMAGE in that order, without repeats, and no other complication type |
| `Configuration.LayoutSlotsAreDistinct` | app/src/main/java/com/github/pvoid/okwatchface/ThisIsConfiguration.kt:69-98 | no layout lists a slot twice; the layouts enable 1, 1, 2, 3 and 0 slots, and CLEAR enables none |
| `Configuration.LayoutContainment` | app/src/main/java/com/github/pvoid/okwatchface/ThisIsConfiguration.kt:69-98 | FULL is FULL_RIGHT followed by LEFT_TOP; every layout except COMPAT_RIGHT is contained in FULL; CLEAR is contained in every layout; RIGHT_CENTER is enabled by COMPAT_RIGHT only |
| `Configuration.SlotBoundsWellFormed` | app/src/main/java/com/github/pvoid/okwatchface/ThisIsConfiguration.kt:21-60 | every slot box satisfies 0 ≤ left < right ≤ 100 and 0 ≤ top < bottom ≤ 100 and is square, with side 24 for RIGHT_CENTER and 22 for the others |
| `Configuration.LayoutSlotsDoNotOverlap` | app/src/main/java/com/github/pvoid/okwatchface/ThisIsConfiguration.kt:21-92 | slots enabled together in a layout have disjoint interiors; RIGHT_TOP and RIGHT_BOTTOM share an edge at 0.62; RIGHT_CENTER overlaps both of them |

## Left out

- Canvas drawing is not modelled: `drawBackground`, the `drawText` calls, bitmap decoding and scaling, `measureText` and font metrics. These are calls into the graphics library. `DrawWatchFace` returns the texts that would be drawn, in order, instead of drawing them.
- The float geometry of `onSurfaceChanged` is not modelled: the time rectangle and the text positions. Only the `== 0f` guard in `drawWatchFace` is kept, on positions passed in as reals. So there is no IEEE `-0f` and no NaN.
- `WatchFace.DrawWatchFace`: the `title` string resource's format is not modelled. The model returns its three arguments, `TitleArgs`.
- The `week_day` string array resource is a parameter. `java.util.Calendar` is replaced by its field values (`CalendarFields`), with their ranges in `InCalendarRange`. The system clock is the `timeMs` parameter.
- Reading the calendar's time zone again on a visibility change or a time-zone broadcast is not modelled, because the calendar is an input here. `OnVisibilityChanged` and `OnTimeZoneChanged` keep only the redraw.
- The Android runtime is abstracted:
  - `Handler`, `Looper` and message due times are modelled as a queue of messages with relative delays.
  - The looper's delivery order is the caller's choice of index in `Engine.Dispatch`.
  - A cleared `WeakReference` (a dead engine) is never modelled.
  - `BroadcastReceiver`/`IntentFilter` registration appears only as `Register`/`Unregister` entries in a ghost log.
  - `WatchFaceStyle.Builder`, resource lookups and `super` calls are left out.
- `WatchFace.Engine.constructor`: the host's initial visibility is taken to be "not visible". Before the first `onVisibilityChanged` the platform does not report it.
- `KotlinText.PadStart`: the `length` argument is a natural number. So Kotlin's `IllegalArgumentException` for a negative length is not modelled. The watch face only passes 2.
- `Configuration`: slot bounds are exact hundredths. So the binary rounding of the `Float` literals (`0.76f` is not exactly 0.76) is not modelled. The resource ids `R.string.*` and `R.drawable.*` are their resource names.
- `Configuration.ComplicationType` lists the constants of the wear library's enum. The library's own behaviour for them is not modelled.
