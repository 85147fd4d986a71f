/**
 Weekly deployment windows (internal/environments/window.go).

 Instants are nanoseconds since 1970-01-01T00:00Z. Every zone has a fixed offset, so one calendar
 day is always 24 hours long. A window that closes at or before its opening minute ends on the
 following day.
 */
module Windows {
  import opened Option

  const NS_PER_MINUTE := 60_000_000_000
  const NS_PER_DAY := 86_400_000_000_000
  const MINUTES_PER_DAY := 1440
  // The zero time (January 1, year 1), which the search uses for "nothing found yet".
  const ZERO_TIME := -62_135_596_800_000_000_000
  const MAX_DAYS_AHEAD := 8

  // from and to are minutes of the local day; days are weekdays with Sunday = 0, none meaning all.
  datatype Window = Window(days: seq<int>, from: int, to: int, offset: int)

  predicate Valid(w: Window) {
    && 0 <= w.from < MINUTES_PER_DAY
    && 0 <= w.to < MINUTES_PER_DAY
    && w.from != w.to
    && forall i | 0 <= i < |w.days| :: 0 <= w.days[i] < 7
  }

  predicate AllValid(ws: seq<Window>) {
    forall i | 0 <= i < |ws| :: Valid(ws[i])
  }

  // 1970-01-01 was a Thursday.
  function Weekday(day: int): int {
    (day + 4) % 7
  }

  function LocalDay(w: Window, t: int): int {
    (t + w.offset) / NS_PER_DAY
  }

  predicate RunsOn(w: Window, day: int) {
    w.days == [] || Weekday(day) in w.days
  }

  function Start(w: Window, day: int): int {
    day * NS_PER_DAY + w.from * NS_PER_MINUTE - w.offset
  }

  function End(w: Window, day: int): int {
    (if w.to <= w.from then day + 1 else day) * NS_PER_DAY + w.to * NS_PER_MINUTE - w.offset
  }

  // The half-open instance of w that starts on local calendar day `day` contains t.
  predicate Covers(w: Window, day: int, t: int) {
    RunsOn(w, day) && Start(w, day) <= t < End(w, day)
  }

  // The instance that starts on the local day of the instant ref, if w runs that weekday.
  function Span(w: Window, ref: int): Option<(int, int)> {
    var day := LocalDay(w, ref);
    if RunsOn(w, day) then Some((Start(w, day), End(w, day))) else None
  }

  // ---- what "open" means, over every day of the calendar -------------------------------------

  ghost predicate InSomeInstance(w: Window, t: int) {
    exists day: int :: Covers(w, day, t)
  }

  ghost predicate IsOpen(ws: seq<Window>, t: int) {
    ws == [] || exists i :: 0 <= i < |ws| && InSomeInstance(ws[i], t)
  }

  ghost predicate IsFirstOpenAtOrAfter(ws: seq<Window>, t: int, r: int) {
    && t <= r
    && IsOpen(ws, r)
    && forall u :: t <= u < r ==> !IsOpen(ws, u)
  }

  // ---- the computation -------------------------------------------------------------------------

  predicate CoversNear(w: Window, t: int) {
    Covers(w, LocalDay(w, t), t) || Covers(w, LocalDay(w, t) - 1, t)
  }

  predicate OpenAt(ws: seq<Window>, t: int) {
    ws == [] || exists i | 0 <= i < |ws| :: CoversNear(ws[i], t)
  }

  // The first start of w after t among the days LocalDay+fwd .. LocalDay+8.
  function NextStart(w: Window, t: int, fwd: nat): (r: Option<int>)
    decreases MAX_DAYS_AHEAD + 1 - fwd
  {
    if fwd > MAX_DAYS_AHEAD then None
    else
      var day := LocalDay(w, t) + fwd;
      if RunsOn(w, day) && Start(w, day) > t then Some(Start(w, day)) else NextStart(w, t, fwd + 1)
  }

  function Earlier(a: Option<int>, b: Option<int>): Option<int> {
    if a.None? then b else if b.Some? && b.value < a.value then b else a
  }

  function EarliestStart(ws: seq<Window>, t: int): Option<int> {
    if ws == [] then None
    else Earlier(EarliestStart(ws[..|ws| - 1], t), NextStart(ws[|ws| - 1], t, 0))
  }

  function NextOpen(ws: seq<Window>, t: int): int {
    if OpenAt(ws, t) then t
    else match EarliestStart(ws, t)
      case Some(s) => s
      case None => t + NS_PER_DAY
  }

  /** Reports whether t falls inside a window and, when it does, where that window's instance ends. */
  method WindowOpen(ws: seq<Window>, t: int) returns (open: bool, closes: int)
    requires AllValid(ws)
    ensures open <==> IsOpen(ws, t)
    ensures open <==> OpenAt(ws, t)
    ensures open && ws != [] ==>
              exists i, day: int :: && 0 <= i < |ws| && Covers(ws[i], day, t) && closes == End(ws[i], day)
                                    && forall j :: 0 <= j < i ==> !InSomeInstance(ws[j], t)
    ensures open && ws != [] ==>
              exists i :: && 0 <= i < |ws| && StaysOpenUntil(ws[i], t, closes)
                          && forall j :: 0 <= j < i ==> !InSomeInstance(ws[j], t)
    ensures !open || ws == [] ==> closes == ZERO_TIME
  {
    hide LocalDay, RunsOn, Start, End, StaysOpenUntil;
    OpenAtIffIsOpen(ws, t);
    if |ws| == 0 {
      return true, ZERO_TIME;
    }
    for i := 0 to |ws|
      invariant forall j :: 0 <= j < i ==> !CoversNear(ws[j], t)
    {
      var w := ws[i];
      for back := 0 to 2
        invariant back >= 1 ==> !Covers(w, LocalDay(w, t), t)
        invariant back >= 2 ==> !Covers(w, LocalDay(w, t) - 1, t)
      {
        ShiftedDay(w, t, -back);
        match Span(w, t - back * NS_PER_DAY)
        case None =>
        case Some((s, e)) =>
          if s <= t < e {
            assert Covers(ws[i], LocalDay(w, t) - back, t);
            forall j | 0 <= j < i ensures !InSomeInstance(ws[j], t) {
              NearIsEnough(ws[j], t);
            }
            EndCloses(ws[i], LocalDay(w, t) - back, t);
            return true, e;
          }
      }
    }
    return false, ZERO_TIME;
  }

  /** Returns t when a window is open at t, else the start of the next window. */
  method OpenAtOrAfter(ws: seq<Window>, t: int) returns (r: int)
    requires AllValid(ws)
    requires ZERO_TIME <= t
    ensures IsFirstOpenAtOrAfter(ws, t, r)
    ensures r == NextOpen(ws, t)
  {
    hide LocalDay, RunsOn, Start, End, IsFirstOpenAtOrAfter, IsOpen, Valid;
    NextOpenIsFirst(ws, t);
    var open, _ := WindowOpen(ws, t);
    if open {
      return t;
    }
    var best := ZERO_TIME;
    for i := 0 to |ws|
      invariant if best == ZERO_TIME then EarliestStart(ws[..i], t).None? else EarliestStart(ws[..i], t) == Some(best)
    {
      var w := ws[i];
      ghost var before := best;
      var fwd := 0;
      while fwd <= MAX_DAYS_AHEAD
        invariant 0 <= fwd <= MAX_DAYS_AHEAD + 1
        invariant best == before
        invariant || NextStart(w, t, 0) == NextStart(w, t, fwd)
                  || (NextStart(w, t, 0).Some? && best != ZERO_TIME && best <= NextStart(w, t, 0).value <= Start(w, LocalDay(w, t) + fwd))
      {
        ShiftedDay(w, t, fwd);
        StartsIncrease(w, LocalDay(w, t) + fwd);
        match Span(w, t + fwd * NS_PER_DAY) {
          case None =>
          case Some((s, _)) =>
            if s > t && (best == ZERO_TIME || s < best) {
              best := s;
              break;
            }
        }
        fwd := fwd + 1;
      }
      assert ws[..i + 1][..|ws[..i + 1]| - 1] == ws[..i];
    }
    assert ws[..|ws|] == ws;
    if best == ZERO_TIME {
      return t + NS_PER_DAY;
    }
    return best;
  }

  // ---- what "open" means on the clock --------------------------------------------------------------

  /**
   On the clock on the wall, d days after 1970-01-01 and r after midnight: a window within one day is open
   from its opening to its closing minute on the days it runs; one that closes at or before its opening
   minute is open from the opening minute on, and before the closing minute if it ran the day before.
   */
  lemma {:induction false} OpenByTheClock(w: Window, t: int)
    requires Valid(w)
    ensures var d, r := (t + w.offset) / 86_400_000_000_000, (t + w.offset) % 86_400_000_000_000;
            var from, to := w.from * 60_000_000_000, w.to * 60_000_000_000;
            var today := w.days == [] || (d + 4) % 7 in w.days;
            var yesterday := w.days == [] || (d + 3) % 7 in w.days;
            InSomeInstance(w, t) <==> if from < to then today && from <= r < to else (today && from <= r) || (yesterday && r < to)
  {
    NearIsEnough(w, t);
  }

  // w is open from t on until `closes`, and not any more at `closes`.
  ghost predicate StaysOpenUntil(w: Window, t: int, closes: int) {
    t < closes && (forall u :: t <= u < closes ==> InSomeInstance(w, u)) && !InSomeInstance(w, closes)
  }

  // An instance ends before the next one of its window begins.
  lemma {:induction false} EndCloses(w: Window, day: int, t: int)
    requires Valid(w) && Covers(w, day, t)
    ensures StaysOpenUntil(w, t, End(w, day))
  {
    forall u | t <= u < End(w, day) ensures InSomeInstance(w, u) {
      assert Covers(w, day, u);
    }
    forall other ensures !Covers(w, other, End(w, day)) {
      StartsAfterEnd(w, day, other);
    }
  }

  lemma {:induction false} StartsAfterEnd(w: Window, day: int, other: int)
    requires Valid(w)
    ensures if other > day then End(w, day) < Start(w, other) else End(w, other) <= End(w, day)
  {
  }

  /** Days of known weekday: 1970-01-01 was a Thursday, January 1 of the year 1 a Monday. */
  lemma KnownWeekdays()
    ensures Weekday(0) == 4 && Weekday(-719_162) == 1 && Weekday(20_000) == 5
    ensures ZERO_TIME == -719_162 * 86_400_000_000_000
  {
  }

  /** The window from 22:00 to 02:00 is open at 01:00 until 02:00, and opens at 22:00 when it is noon. */
  lemma {:induction false} AcrossMidnight(day: int)
    ensures var w, midnight := Window([], 22 * 60, 2 * 60, 0), day * 86_400_000_000_000;
            && Valid(w)
            && StaysOpenUntil(w, midnight + 3_600_000_000_000, midnight + 7_200_000_000_000)
            && IsFirstOpenAtOrAfter([w], midnight + 43_200_000_000_000, midnight + 79_200_000_000_000)
  {
    hide IsFirstOpenAtOrAfter, StaysOpenUntil, LocalDay;
    var w, midnight := Window([], 22 * 60, 2 * 60, 0), day * 86_400_000_000_000;
    var noon, opens := midnight + 43_200_000_000_000, midnight + 79_200_000_000_000;
    EndCloses(w, day - 1, midnight + 3_600_000_000_000);
    OpensAtTen(w, day);
    FirstOpen(w, noon, opens);
  }

  lemma {:induction false} OpensAtTen(w: Window, day: int)
    requires w == Window([], 22 * 60, 2 * 60, 0)
    ensures InSomeInstance(w, Start(w, day))
    ensures forall u :: End(w, day - 1) <= u < Start(w, day) ==> !InSomeInstance(w, u)
  {
    assert Covers(w, day, Start(w, day));
    forall u, d | End(w, day - 1) <= u < Start(w, day) ensures !Covers(w, d, u) {
      assert if d < day then End(w, d) <= End(w, day - 1) else Start(w, day) <= Start(w, d);
    }
  }

  lemma {:induction false} FirstOpen(w: Window, t: int, r: int)
    requires t <= r && InSomeInstance(w, r) && forall u :: t <= u < r ==> !InSomeInstance(w, u)
    ensures IsFirstOpenAtOrAfter([w], t, r)
  {
    hide InSomeInstance;
    assert [w][0] == w;
  }

  // ---- properties ------------------------------------------------------------------------------

  lemma ShiftedDay(w: Window, t: int, n: int)
    ensures LocalDay(w, t + n * NS_PER_DAY) == LocalDay(w, t) + n
  {
  }

  lemma DayBounds(w: Window, t: int)
    ensures LocalDay(w, t) * NS_PER_DAY <= t + w.offset < (LocalDay(w, t) + 1) * NS_PER_DAY
  {
  }

  lemma StartsIncrease(w: Window, day: int)
    ensures Start(w, day) < Start(w, day + 1)
  {
  }

  // A valid instance is non-empty and shorter than a day, so only today's and yesterday's can cover t.
  lemma CoveringDay(w: Window, day: int, t: int)
    requires Valid(w)
    requires Covers(w, day, t)
    ensures LocalDay(w, t) - 1 <= day <= LocalDay(w, t)
  {
    DayBounds(w, t);
  }

  lemma NearIsEnough(w: Window, t: int)
    requires Valid(w)
    ensures InSomeInstance(w, t) <==> CoversNear(w, t)
  {
    if InSomeInstance(w, t) {
      var day :| Covers(w, day, t);
      CoveringDay(w, day, t);
    }
  }

  /** Looking at today and yesterday decides membership in any instance of the whole calendar. */
  lemma OpenAtIffIsOpen(ws: seq<Window>, t: int)
    requires AllValid(ws)
    ensures OpenAt(ws, t) <==> IsOpen(ws, t)
  {
    forall i | 0 <= i < |ws| ensures InSomeInstance(ws[i], t) <==> CoversNear(ws[i], t) {
      NearIsEnough(ws[i], t);
    }
  }

  // Every weekday occurs among any seven consecutive days.
  lemma WeekdayWithin(day: int, wd: int) returns (k: int)
    requires 0 <= wd < 7
    ensures 1 <= k <= 7 && Weekday(day + k) == wd
  {
    var p := (wd - Weekday(day) + 6) / 7;
    k := wd - Weekday(day) + 6 - 7 * p + 1;
    assert day + k + 4 == 7 * ((day + 4) / 7 - p + 1) + wd;
  }

  lemma SomeRunAhead(w: Window, day: int) returns (k: int)
    requires Valid(w)
    ensures 1 <= k <= 7 && RunsOn(w, day + k)
  {
    if w.days == [] {
      k := 1;
    } else {
      k := WeekdayWithin(day, w.days[0]);
    }
  }

  // NextStart finds the least start after t, and always finds one.
  lemma {:induction false} NextStartIsLeast(w: Window, t: int, fwd: nat)
    requires Valid(w) && fwd <= MAX_DAYS_AHEAD + 1
    ensures NextStart(w, t, fwd).Some? ==>
              exists day: int :: LocalDay(w, t) + fwd <= day && RunsOn(w, day) && NextStart(w, t, fwd).value == Start(w, day) > t
    ensures forall day: int :: LocalDay(w, t) + fwd <= day <= LocalDay(w, t) + MAX_DAYS_AHEAD && RunsOn(w, day) && Start(w, day) > t
              ==> NextStart(w, t, fwd).Some? && NextStart(w, t, fwd).value <= Start(w, day)
    decreases MAX_DAYS_AHEAD + 1 - fwd
  {
    if fwd <= MAX_DAYS_AHEAD {
      NextStartIsLeast(w, t, fwd + 1);
    }
  }

  lemma {:induction false} NextStartExists(w: Window, t: int)
    requires Valid(w)
    ensures NextStart(w, t, 0).Some?
    ensures NextStart(w, t, 0).value > t && InSomeInstance(w, NextStart(w, t, 0).value)
    ensures forall day: int :: RunsOn(w, day) && Start(w, day) > t ==> NextStart(w, t, 0).value <= Start(w, day)
  {
    NextStartIsLeast(w, t, 0);
    DayBounds(w, t);
    var k := SomeRunAhead(w, LocalDay(w, t));
    assert Start(w, LocalDay(w, t) + k) > t;
    var s := NextStart(w, t, 0).value;
    var d: int :| RunsOn(w, d) && s == Start(w, d) && s > t;
    assert Covers(w, d, s);
    forall day: int | RunsOn(w, day) && Start(w, day) > t ensures s <= Start(w, day) {
      if day > LocalDay(w, t) + MAX_DAYS_AHEAD {
        assert Start(w, LocalDay(w, t) + k) <= Start(w, day);
      } else {
        assert day >= LocalDay(w, t);
      }
    }
  }

  lemma {:induction false} EarliestStartIsLeast(ws: seq<Window>, t: int)
    requires AllValid(ws) && ws != []
    ensures EarliestStart(ws, t).Some?
    ensures exists i :: 0 <= i < |ws| && NextStart(ws[i], t, 0) == EarliestStart(ws, t)
    ensures forall i :: 0 <= i < |ws| ==> NextStart(ws[i], t, 0).Some? && EarliestStart(ws, t).value <= NextStart(ws[i], t, 0).value
  {
    var init := ws[..|ws| - 1];
    NextStartExists(ws[|ws| - 1], t);
    if init != [] {
      EarliestStartIsLeast(init, t);
      var i :| 0 <= i < |init| && NextStart(init[i], t, 0) == EarliestStart(init, t);
      assert NextStart(ws[i], t, 0) == EarliestStart(init, t);
    }
    forall i | 0 <= i < |ws|
      ensures NextStart(ws[i], t, 0).Some? && EarliestStart(ws, t).value <= NextStart(ws[i], t, 0).value
    {
      if i < |ws| - 1 {
        assert ws[i] == init[i];
      }
    }
    assert EarliestStart(ws, t) == NextStart(ws[|ws| - 1], t, 0) || init != [];
  }

  /** The answer is the least open instant at or after t: the one-day fallback is never used. */
  lemma {:induction false} NextOpenIsFirst(ws: seq<Window>, t: int)
    requires AllValid(ws)
    ensures IsFirstOpenAtOrAfter(ws, t, NextOpen(ws, t))
    ensures OpenAt(ws, t) || EarliestStart(ws, t).Some?
  {
    OpenAtIffIsOpen(ws, t);
    if !OpenAt(ws, t) {
      EarliestStartIsLeast(ws, t);
      var s := NextOpen(ws, t);
      var i :| 0 <= i < |ws| && NextStart(ws[i], t, 0) == EarliestStart(ws, t);
      NextStartExists(ws[i], t);
      assert InSomeInstance(ws[i], s);
      forall u | t <= u < s ensures !IsOpen(ws, u) {
        if IsOpen(ws, u) {
          var j :| 0 <= j < |ws| && InSomeInstance(ws[j], u);
          ClosedUntilNextStart(ws[j], t, u);
        }
      }
    }
  }

  lemma {:induction false} ClosedUntilNextStart(w: Window, t: int, u: int)
    requires Valid(w) && t <= u && InSomeInstance(w, u) && !InSomeInstance(w, t)
    ensures NextStart(w, t, 0).Some? && NextStart(w, t, 0).value <= u
  {
    NextStartExists(w, t);
    var day :| Covers(w, day, u);
    assert !Covers(w, day, t);
    assert Start(w, day) > t;
  }

  lemma FirstOpenIsUnique(ws: seq<Window>, t: int, a: int, b: int)
    requires IsFirstOpenAtOrAfter(ws, t, a) && IsFirstOpenAtOrAfter(ws, t, b)
    ensures a == b
  {
  }
}
