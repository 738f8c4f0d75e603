/**
 * The watch-face engine of `ThisIsWatchFace`: when it asks the framework to
 * redraw, when its update timer is armed, when its time-zone receiver is
 * registered, and which strings it draws for the time and the date.
 *
 * The system clock, the calendar, the host's visibility and the layout done
 * on surface change are inputs here; the handler's queue is the abstract
 * queue of module `MessageQueue`, and a registration with the platform is an
 * entry in the ghost log `receiverLog`.
 */
module WatchFace {

  import opened KotlinText
  import opened MessageQueue

  /** Interval between redraws in interactive mode, in milliseconds. */
  const INTERACTIVE_UPDATE_RATE_MS: int := 30000

  /** The `what` code of the handler's update message. */
  const MSG_UPDATE_TIME: int := 0

  // ---------------------------------------------------------------------
  // The rescheduling delay
  // ---------------------------------------------------------------------

  /** Kotlin's `%`: the remainder of truncating division, with the sign of `a`. */
  function TruncRem(a: int, b: int): (r: int)
    requires b > 0
    ensures a >= 0 ==> 0 <= r < b
    ensures a < 0 ==> -b < r <= 0
    ensures a == (if a >= 0 then a / b else -((-a) / b)) * b + r
  {
    if a >= 0 then a % b else -((-a) % b)
  }

  /** A time that a redraw tick should land on: a multiple of the update rate. */
  predicate IsTickBoundary(t: int) {
    t % INTERACTIVE_UPDATE_RATE_MS == 0
  }

  /**
   * `INTERACTIVE_UPDATE_RATE_MS - timeMs % INTERACTIVE_UPDATE_RATE_MS`: the
   * delay after which the next update message is due.
   */
  function UpdateDelayMs(timeMs: int): (delayMs: int)
    ensures timeMs >= 0 ==> 1 <= delayMs <= INTERACTIVE_UPDATE_RATE_MS
    ensures timeMs < 0 ==> INTERACTIVE_UPDATE_RATE_MS <= delayMs < 2 * INTERACTIVE_UPDATE_RATE_MS
    ensures IsTickBoundary(timeMs + delayMs)
  {
    var d := INTERACTIVE_UPDATE_RATE_MS - TruncRem(timeMs, INTERACTIVE_UPDATE_RATE_MS);
    assert timeMs < 0 ==> timeMs + d == (1 - (-timeMs) / INTERACTIVE_UPDATE_RATE_MS) * INTERACTIVE_UPDATE_RATE_MS;
    assert timeMs >= 0 ==> timeMs + d == (timeMs / INTERACTIVE_UPDATE_RATE_MS + 1) * INTERACTIVE_UPDATE_RATE_MS;
    d
  }

  /**
   * For a non-negative clock the next tick is the first 30-second boundary
   * strictly after `timeMs`.
   */
  lemma NextTickIsNextBoundary(timeMs: int)
    requires timeMs >= 0
    ensures timeMs < timeMs + UpdateDelayMs(timeMs)
    ensures IsTickBoundary(timeMs + UpdateDelayMs(timeMs))
    ensures forall b :: IsTickBoundary(b) && timeMs < b ==> timeMs + UpdateDelayMs(timeMs) <= b
  {
  }

  /**
   * With a negative clock Kotlin's remainder is not positive, so a time that
   * is not itself a boundary is rescheduled one boundary too late: the
   * boundary `timeMs + delayMs - INTERACTIVE_UPDATE_RATE_MS` lies in between.
   */
  lemma NegativeTimeSkipsBoundary(timeMs: int)
    requires timeMs < 0 && !IsTickBoundary(timeMs)
    ensures IsTickBoundary(timeMs + UpdateDelayMs(timeMs) - INTERACTIVE_UPDATE_RATE_MS)
    ensures timeMs < timeMs + UpdateDelayMs(timeMs) - INTERACTIVE_UPDATE_RATE_MS
  {
  }

  // ---------------------------------------------------------------------
  // The text drawn by drawWatchFace
  // ---------------------------------------------------------------------

  /** The calendar fields `drawWatchFace` reads, as `java.util.Calendar` numbers them. */
  datatype CalendarFields = CalendarFields(
    hourOfDay: int,   // HOUR_OF_DAY, 0..23
    minute: int,      // MINUTE, 0..59
    dayOfWeek: int,   // DAY_OF_WEEK, 1 (Sunday) .. 7
    dayOfMonth: int,  // DAY_OF_MONTH, 1..31
    month: int)       // MONTH, 0 (January) .. 11

  /** The ranges `java.util.Calendar` keeps its fields in. */
  predicate InCalendarRange(c: CalendarFields) {
    && 0 <= c.hourOfDay <= 23
    && 0 <= c.minute <= 59
    && 1 <= c.dayOfWeek <= 7
    && 1 <= c.dayOfMonth <= 31
    && 0 <= c.month <= 11
  }

  /**
   * The hour as drawn: `toString()` of HOUR_OF_DAY, not padded, so a single
   * character exactly for the hours 0..9.
   */
  function HourText(hourOfDay: int): (s: string)
    ensures 0 <= hourOfDay <==> AllDigits(s)
    ensures |s| == 1 <==> 0 <= hourOfDay < 10
  {
    IntToString(hourOfDay)
  }

  /**
   * The minute as drawn: `toString()` of MINUTE, padded to two with `'0'`,
   * so two characters exactly when the numeral has at most two.
   */
  function MinuteText(minute: int): (s: string)
    ensures 2 <= |s|
    ensures |s| == 2 <==> -9 <= minute < 100
    ensures 0 <= minute <==> AllDigits(s)
    ensures minute < 0 ==> s[0] == '-'
  {
    DigitsLength(if minute < 0 then -minute else minute);
    PadStart(IntToString(minute), 2, '0')
  }

  /** The index into the `week_day` string array: DAY_OF_WEEK counts from 1. */
  function WeekDayIndex(dayOfWeek: int): (i: int)
    ensures 1 <= dayOfWeek <= 7 ==> 0 <= i <= 6
    ensures 0 <= i <==> 1 <= dayOfWeek
  {
    dayOfWeek - 1
  }

  /** The month as shown in the title: MONTH counts from 0. */
  function DisplayedMonth(month: int): (m: int)
    ensures 0 <= month <= 11 ==> 1 <= m <= 12
  {
    month + 1
  }

  /** The arguments the `title` string resource is formatted with. */
  datatype TitleArgs = TitleArgs(weekDay: string, dayOfMonth: int, month: int)

  datatype DrawnText =
    | Separator               // ":" at mHoursRight
    | Hours(text: string)     // right-aligned at mHoursRight
    | Minutes(text: string)   // from mMinutesLeft
    | Title(args: TitleArgs)  // centred above the time

  /**
   * What one call of `drawWatchFace` draws, in order; `failed` when the
   * week-day lookup goes outside the `week_day` array, which throws after
   * the time has been drawn.
   */
  datatype FaceDrawing = FaceDrawing(texts: seq<DrawnText>, failed: bool)

  /**
   * `drawWatchFace`: nothing before the surface has been laid out (either
   * text position still 0), otherwise the separator, the hours, the minutes
   * and the title. `weekDays` is the `week_day` string array resource.
   */
  function DrawWatchFace(hoursRight: real, minutesLeft: real, cal: CalendarFields, weekDays: seq<string>): (d: FaceDrawing)
    ensures hoursRight == 0.0 || minutesLeft == 0.0 <==> d.texts == []
    ensures d.failed ==> |d.texts| == 3
  {
    if hoursRight == 0.0 || minutesLeft == 0.0 then FaceDrawing([], false)
    else
      var time := [Separator, Hours(HourText(cal.hourOfDay)), Minutes(MinuteText(cal.minute))];
      var i := WeekDayIndex(cal.dayOfWeek);
      if 0 <= i < |weekDays| then
        FaceDrawing(time + [Title(TitleArgs(weekDays[i], cal.dayOfMonth, DisplayedMonth(cal.month)))], false)
      else
        FaceDrawing(time, true)
  }

  /** Minutes 0..99 come out as exactly two digits that read back as the minute: the tens, then the units. */
  lemma MinuteTextIsTwoDigits(minute: int)
    requires 0 <= minute < 100
    ensures |MinuteText(minute)| == 2 && AllDigits(MinuteText(minute))
    ensures DigitsValue(MinuteText(minute)) == minute
    ensures MinuteText(minute)[0] == DigitChar(minute / 10)
    ensures MinuteText(minute)[1] == DigitChar(minute % 10)
  {
    var t := MinuteText(minute);
    MinuteTextValue(minute);
    TwoDigitsValue(t);
    var tens, units := t[0] as int - '0' as int, t[1] as int - '0' as int;
    assert IsDigit(t[0]) && IsDigit(t[1]);
    assert minute / 10 == tens && minute % 10 == units by {
      assert minute == 10 * tens + units && 0 <= units < 10;
    }
  }

  /** A non-negative minute reads back from its text, padding zero and all. */
  lemma MinuteTextValue(minute: int)
    requires 0 <= minute
    ensures DigitsValue(MinuteText(minute)) == minute
  {
    var t := IntToString(minute);
    DigitsRoundTrip(minute);
    if minute < 10 {
      LeadingZeroValue(t);
      assert MinuteText(minute) == "0" + t;
    }
  }

  /** The hour is its unpadded numeral: one digit below ten, two up to 23. */
  lemma HourTextIsUnpadded(hourOfDay: int)
    requires 0 <= hourOfDay <= 23
    ensures ParseInt(HourText(hourOfDay)) == Some(hourOfDay)
    ensures |HourText(hourOfDay)| == (if hourOfDay < 10 then 1 else 2)
    ensures |HourText(hourOfDay)| == 2 ==> HourText(hourOfDay)[0] != '0'
  {
    IntToStringRoundTrip(hourOfDay);
    DigitsLength(hourOfDay);
  }

  /**
   * Once laid out, with the calendar in range and a seven-entry `week_day`
   * array, `drawWatchFace` does not fail: it draws the separator, the hour
   * and the minute (read back in `DrawnTimeReadsBack`), then the title with the week day at DAY_OF_WEEK - 1 and the month
   * counted from 1.
   */
  lemma DrawnTextsDenoteCalendar(hoursRight: real, minutesLeft: real, cal: CalendarFields, weekDays: seq<string>)
    requires hoursRight != 0.0 && minutesLeft != 0.0
    requires InCalendarRange(cal) && |weekDays| == 7
    ensures var d := DrawWatchFace(hoursRight, minutesLeft, cal, weekDays);
      && !d.failed
      && d.texts == [Separator, Hours(HourText(cal.hourOfDay)), Minutes(MinuteText(cal.minute)),
                     Title(TitleArgs(weekDays[cal.dayOfWeek - 1], cal.dayOfMonth, cal.month + 1))]
      && 1 <= d.texts[3].args.month <= 12
  {
  }

  /**
   * Read back from a face drawn in range, the hour text gives HOUR_OF_DAY
   * and the two minute digits give MINUTE.
   */
  lemma DrawnTimeReadsBack(hoursRight: real, minutesLeft: real, cal: CalendarFields, weekDays: seq<string>)
    requires hoursRight != 0.0 && minutesLeft != 0.0
    requires InCalendarRange(cal) && |weekDays| == 7
    ensures var d := DrawWatchFace(hoursRight, minutesLeft, cal, weekDays);
      && |d.texts| == 4 && d.texts[1].Hours? && d.texts[2].Minutes?
      && ParseInt(d.texts[1].text) == Some(cal.hourOfDay)
      && |d.texts[2].text| == 2 && AllDigits(d.texts[2].text)
      && DigitsValue(d.texts[2].text) == cal.minute
  {
    DrawnTextsDenoteCalendar(hoursRight, minutesLeft, cal, weekDays);
    HourTextIsUnpadded(cal.hourOfDay);
    MinuteTextIsTwoDigits(cal.minute);
  }

  /** The week-day lookup fails exactly when DAY_OF_WEEK is outside the array. */
  lemma DrawFailsOnlyOutsideWeekDays(hoursRight: real, minutesLeft: real, cal: CalendarFields, weekDays: seq<string>)
    requires hoursRight != 0.0 && minutesLeft != 0.0
    ensures DrawWatchFace(hoursRight, minutesLeft, cal, weekDays).failed
        <==> !(1 <= cal.dayOfWeek <= |weekDays|)
  {
  }

  // ---------------------------------------------------------------------
  // The engine
  // ---------------------------------------------------------------------

  /** A call the engine makes on the platform for its time-zone receiver. */
  datatype ReceiverCall = Register | Unregister

  /** Register and unregister calls alternate, starting with a register. */
  ghost predicate Alternates(log: seq<ReceiverCall>) {
    forall i :: 0 <= i < |log| ==> log[i] == if i % 2 == 0 then Register else Unregister
  }

  class Engine {
    /** The host's `isVisible`, as reported with `onVisibilityChanged`. */
    var visible: bool
    /** `mAmbient` */
    var ambient: bool
    /** `mRegisteredTimeZoneReceiver` */
    var registered: bool
    /** The pending messages of `mUpdateTimeHandler`. */
    var queue: seq<Message>
    /** How many times the engine has asked the host to redraw (`invalidate()`). */
    var invalidations: nat
    /** The platform `registerReceiver`/`unregisterReceiver` calls, in order. */
    ghost var receiverLog: seq<ReceiverCall>

    /** The flag says whether the receiver is registered with the platform. */
    ghost predicate Valid()
      reads this
    {
      Alternates(receiverLog) && (registered <==> |receiverLog| % 2 == 1)
    }

    /** The timer runs only in interactive mode: visible and not ambient. */
    predicate ShouldTimerBeRunning()
      reads this
    {
      visible && !ambient
    }

    /** What `updateTimer` leaves behind: one immediate update message exactly when the timer should run. */
    predicate TimerArmedAsRequired()
      reads this
    {
      && Count(queue, MSG_UPDATE_TIME) == (if ShouldTimerBeRunning() then 1 else 0)
      && forall i :: 0 <= i < |queue| && queue[i].what == MSG_UPDATE_TIME ==> queue[i].delayMs == 0
    }

    /** The engine as `onCreate` leaves it. */
    constructor ()
      ensures Valid()
      ensures !visible && !ambient && !registered
      ensures queue == [] && invalidations == 0 && receiverLog == []
    {
      visible, ambient, registered := false, false, false;
      queue, invalidations := [], 0;
      receiverLog := [];
    }

    /** `registerReceiver`: registers with the platform only when not yet registered. */
    method RegisterReceiver()
      requires Valid()
      modifies this`registered, this`receiverLog
      ensures Valid() && registered
      ensures receiverLog == if old(registered) then old(receiverLog) else old(receiverLog) + [Register]
    {
      if registered {
        return;
      }
      registered := true;
      receiverLog := receiverLog + [Register];
    }

    /** `unregisterReceiver`: unregisters from the platform only when registered. */
    method UnregisterReceiver()
      requires Valid()
      modifies this`registered, this`receiverLog
      ensures Valid() && !registered
      ensures receiverLog == if old(registered) then old(receiverLog) + [Unregister] else old(receiverLog)
    {
      if !registered {
        return;
      }
      registered := false;
      receiverLog := receiverLog + [Unregister];
    }

    /** `updateTimer`: drop every pending update, then send one now if the timer should run. */
    method UpdateTimer()
      modifies this`queue
      ensures TimerArmedAsRequired()
      ensures queue == RemoveMessages(old(queue), MSG_UPDATE_TIME)
                       + (if ShouldTimerBeRunning() then [Message(MSG_UPDATE_TIME, 0)] else [])
    {
      var cleared := RemoveMessages(queue, MSG_UPDATE_TIME);
      if ShouldTimerBeRunning() {
        var tick := Message(MSG_UPDATE_TIME, 0);
        CountAppend(cleared, tick, MSG_UPDATE_TIME);
        queue := cleared + [tick];
        assert forall i :: 0 <= i < |cleared| ==> queue[i] == cleared[i];
      } else {
        queue := cleared;
      }
    }

    /**
     * `handleUpdateTimeMessage`: always redraw; while the timer should run,
     * send the next update for the next 30-second boundary after `timeMs`.
     */
    method HandleUpdateTimeMessage(timeMs: int)
      modifies this`queue, this`invalidations
      ensures invalidations == old(invalidations) + 1
      ensures queue == old(queue)
                       + (if ShouldTimerBeRunning() then [Message(MSG_UPDATE_TIME, UpdateDelayMs(timeMs))] else [])
      ensures Count(queue, MSG_UPDATE_TIME) == Count(old(queue), MSG_UPDATE_TIME) + (if ShouldTimerBeRunning() then 1 else 0)
    {
      invalidations := invalidations + 1;
      if ShouldTimerBeRunning() {
        var delayMs := UpdateDelayMs(timeMs);
        CountAppend(queue, Message(MSG_UPDATE_TIME, delayMs), MSG_UPDATE_TIME);
        queue := queue + [Message(MSG_UPDATE_TIME, delayMs)];
      }
    }

    /**
     * The handler's looper delivering the pending message at `i` (it leaves
     * the queue) to `EngineHandler.handleMessage`, which passes update
     * messages on to `HandleUpdateTimeMessage` and ignores the rest.
     * If at most one update message was pending, at most one stays; a
     * delivered update keeps exactly one pending while the timer should run.
     */
    method Dispatch(i: nat, timeMs: int)
      requires i < |queue|
      modifies this`queue, this`invalidations
      ensures var m := old(queue[i]);
        var rest := old(queue[..i] + queue[i + 1..]);
        if m.what == MSG_UPDATE_TIME then
          && invalidations == old(invalidations) + 1
          && queue == rest + (if ShouldTimerBeRunning() then [Message(MSG_UPDATE_TIME, UpdateDelayMs(timeMs))] else [])
        else
          invalidations == old(invalidations) && queue == rest
      ensures old(Count(queue, MSG_UPDATE_TIME)) <= 1 ==> Count(queue, MSG_UPDATE_TIME) <= 1
      ensures old(Count(queue, MSG_UPDATE_TIME)) == 1 && old(queue[i].what) == MSG_UPDATE_TIME && ShouldTimerBeRunning()
              ==> Count(queue, MSG_UPDATE_TIME) == 1
    {
      var m := queue[i];
      CountRemoveAt(queue, i, MSG_UPDATE_TIME);
      queue := queue[..i] + queue[i + 1..];
      if m.what == MSG_UPDATE_TIME {
        HandleUpdateTimeMessage(timeMs);
      }
    }

    /**
     * `onVisibilityChanged`: register the time-zone receiver and redraw when
     * shown, unregister when hidden, then re-arm the timer.
     */
    method OnVisibilityChanged(isVisible: bool)
      requires Valid()
      modifies this
      ensures Valid()
      ensures visible == isVisible && registered == isVisible && ambient == old(ambient)
      ensures TimerArmedAsRequired()
      ensures queue == RemoveMessages(old(queue), MSG_UPDATE_TIME)
                       + (if ShouldTimerBeRunning() then [Message(MSG_UPDATE_TIME, 0)] else [])
      ensures invalidations == old(invalidations) + (if isVisible then 1 else 0)
      ensures receiverLog == old(receiverLog) + (if old(registered) == isVisible then []
                                                 else if isVisible then [Register] else [Unregister])
    {
      ghost var pending := queue;
      visible := isVisible;
      if isVisible {
        RegisterReceiver();
        invalidations := invalidations + 1;
      } else {
        UnregisterReceiver();
      }
      assert queue == pending;
      UpdateTimer();
    }

    /** `onAmbientModeChanged`: record the mode, then re-arm the timer. */
    method OnAmbientModeChanged(inAmbientMode: bool)
      modifies this`ambient, this`queue
      ensures ambient == inAmbientMode
      ensures TimerArmedAsRequired()
      ensures queue == RemoveMessages(old(queue), MSG_UPDATE_TIME)
                       + (if ShouldTimerBeRunning() then [Message(MSG_UPDATE_TIME, 0)] else [])
    {
      ambient := inAmbientMode;
      UpdateTimer();
    }

    /** `onDestroy`: no update message stays pending. */
    method OnDestroy()
      modifies this`queue
      ensures Count(queue, MSG_UPDATE_TIME) == 0
      ensures queue == RemoveMessages(old(queue), MSG_UPDATE_TIME)
    {
      queue := RemoveMessages(queue, MSG_UPDATE_TIME);
    }

    /** `onTimeTick`: the host's once-a-minute tick redraws. */
    method OnTimeTick()
      modifies this`invalidations
      ensures invalidations == old(invalidations) + 1
    {
      invalidations := invalidations + 1;
    }

    /** The time-zone receiver's `onReceive`: the calendar follows the new zone and the face redraws. */
    method OnTimeZoneChanged()
      modifies this`invalidations
      ensures invalidations == old(invalidations) + 1
    {
      invalidations := invalidations + 1;
    }
  }
}
