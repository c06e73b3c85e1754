/**
  The picker's objects. A Selector is one wheel column: its window of labels,
  the offsets of the list, the drag anchor and the drag flag, updated in place
  by the device-event handlers. The host Picker owns the hours and minutes
  selectors and the chosen time they report into.
 */
module TimePicker {
  import opened WheelMath
  import opened SelectorSpec

  /** A selector's name, which is also the field of the chosen time it writes. */
  datatype Column = Hours | Minutes

  /** What a selector hands its host's callback: the value it shows and its own name. */
  datatype Report = Report(value: int, selectorName: Column)

  /** The chosen time. */
  datatype Time = Time(hours: int, minutes: int)

  /** The hours column's element count: the `hoursFormat` input, whose default is 24. */
  const HoursFormat: int := 24

  /** The minutes column's element count. */
  const MinuteCount: int := 60

  /** A reported value tagged with the selector's name. */
  function Announce(name: Column, v: Option<int>): Option<Report> {
    match v
    case None => None
    case Some(x) => Some(Report(x, name))
  }

  /** The chosen time with the named field set to `v`. */
  function Record(t: Time, name: Column, v: int): Time {
    match name
    case Hours => t.(hours := v)
    case Minutes => t.(minutes := v)
  }

  /**
    The labels `_fillSelector` gives the window's elements, appended one per
    entry -2 .. n+1. For at least two values each is a value of the column,
    the first two repeat the last two values and the last two repeat 0 and 1.
   */
  method BuildWindow(n: int) returns (w: seq<int>)
    requires n >= 1
    ensures |w| == n + FakeCount
    ensures forall j :: 0 <= j < |w| ==> w[j] == Label(n, j - FakeCount / 2)
    ensures n >= 2 ==> forall j :: 0 <= j < |w| ==> 0 <= w[j] < n && w[j] == (j - FakeCount / 2) % n
    ensures n >= 2 ==> w[0] == n - 2 && w[1] == n - 1 && w[n + 2] == 0 && w[n + 3] == 1
  {
    var half := FakeCount / 2;
    w := [];
    var i := -half;
    while i < n + half
      invariant -half <= i <= n + half
      invariant |w| == i + half
      invariant forall j :: 0 <= j < |w| ==> w[j] == Label(n, j - half)
    {
      w := w + [Label(n, i)];
      i := i + 1;
    }
  }

  class Selector {
    const name: Column
    /** The number of values. */
    const n: int
    /** The measured height of one item. */
    const h: int
    /** Height of the whole window. */
    const listHeight: int
    /** The labels (element ids) of the window, in order. */
    const labels: seq<int>
    /** The optional start index; reset to 0 when out of range. */
    var startIndex: Option<int>
    /** Whether the out-of-range start index was reported on the error console. */
    var loggedRangeError: bool
    /** The offset the arithmetic starts from. */
    var current: int
    /** The offset the list is rendered with (its `translateY`). */
    var rendered: int
    /** The pointer position the next move is measured from. */
    var anchor: int
    /** The drag flag. */
    var dragging: bool
    /** False once the selector has been torn down. */
    var live: bool

    function Cfg(): Config {
      Config(n, h)
    }

    ghost predicate Valid() {
      && Cfg().Valid()
      && |labels| == n + FakeCount
      && listHeight == h * |labels|
      && forall j :: 0 <= j < |labels| ==> labels[j] == Label(n, j - FakeCount / 2)
    }

    ghost function State(): ListState
      reads this
    {
      ListState(current, rendered, anchor, dragging, live)
    }

    /**
      Builds the window, sets the arithmetic offset one item up and renders the
      list at the start index's offset (one item up when there is none).
     */
    constructor (name: Column, n: int, h: int, start: Option<int>)
      requires Config(n, h).Valid()
      ensures Valid() && this.name == name && this.n == n && this.h == h
      ensures State() == Initial(Config(n, h), start)
      ensures startIndex == if HasStart(start) then Some(StartSlot(n, start.value)) else start
      ensures loggedRangeError == (HasStart(start) && start.value + 1 > n)
    {
      this.name := name;
      this.n := n;
      this.h := h;
      var w := BuildWindow(n);
      labels := w;
      listHeight := h * |w|;
      startIndex := start;
      loggedRangeError := false;
      current := -h;
      rendered := -h;
      anchor := 0;
      dragging := false;
      live := true;
      new;
      if HasStart(start) {
        rendered := GetStartOffset();
      }
    }

    /** The offset that shows the start index, resetting an out-of-range index to 0 and logging it. */
    method GetStartOffset() returns (offset: int)
      requires Valid() && startIndex.Some?
      modifies this`startIndex, this`loggedRangeError
      ensures startIndex == Some(StartSlot(n, old(startIndex.value)))
      ensures loggedRangeError == (old(loggedRangeError) || old(startIndex.value) + 1 > n)
      ensures offset == -(startIndex.value + 1) * h
    {
      if startIndex.value + 1 > n {
        startIndex := Some(0);
        loggedRangeError := true;
      }
      offset := (startIndex.value + 1) * -h;
    }

    /** Moves the list by `delta`, re-anchoring it past either bound, and renders it there. */
    method ChangeTranslateY(delta: int)
      requires Valid()
      modifies this`current, this`rendered
      ensures current == rendered == Translate(Cfg(), old(current), delta, dragging)
    {
      var boundsStart := if dragging then h / 2 else h;
      var t := current + delta;
      if t > -boundsStart {
        t := delta - listHeight + h * FakeCount - boundsStart;
      } else if t < n * -h - boundsStart {
        t := delta - boundsStart;
      }
      current := t;
      rendered := t;
    }

    /** The report for the element at the current offset, if that element exists. */
    method SelectCurrent() returns (r: Option<Report>)
      requires Valid()
      ensures r == Announce(name, Resolve(Cfg(), current))
    {
      r := None;
      if current % h == 0 {
        var index := Abs(current) / h + 1;
        if index < |labels| {
          r := Some(Report(labels[index], name));
        }
      }
    }

    /** A press: starts a drag session at pointer position `y`. */
    method DragStart(y: int)
      requires Valid()
      modifies this`dragging, this`anchor
      ensures State() == Step(Cfg(), AsWritten, old(State()), Press(y)).next
    {
      if live {
        dragging := true;
        anchor := y;
      }
    }

    /** A pointer move inside a drag session. */
    method DragMove(y: int)
      requires Valid()
      modifies this`current, this`rendered, this`anchor
      ensures State() == Step(Cfg(), AsWritten, old(State()), Move(y)).next
    {
      if live && dragging {
        current := rendered;
        var delta := y - anchor;
        anchor := y;
        ChangeTranslateY(delta);
      }
    }

    /** A release: ends the drag session, snaps to the nearest item and reports. */
    method DragEnd() returns (r: Option<Report>)
      requires Valid()
      modifies this`current, this`rendered, this`dragging
      ensures State() == Step(Cfg(), AsWritten, old(State()), Lift).next
      ensures r == Announce(name, Step(Cfg(), AsWritten, old(State()), Lift).reported)
    {
      r := None;
      if live && dragging {
        dragging := false;
        ChangeTranslateY(Snap(Cfg(), current));
        r := SelectCurrent();
      }
    }

    /** A wheel event: ends any drag, steps one item (or follows the pointer) and reports. */
    method Wheel(deltaY: int, y: int) returns (r: Option<Report>)
      requires Valid()
      modifies this`current, this`rendered, this`anchor, this`dragging
      ensures State() == Step(Cfg(), AsWritten, old(State()), WheelTurn(deltaY, y)).next
      ensures r == Announce(name, Step(Cfg(), AsWritten, old(State()), WheelTurn(deltaY, y)).reported)
    {
      r := None;
      if live {
        dragging := false;
        current := rendered;
        var delta;
        if deltaY != 0 {
          delta := Snap(Cfg(), current) + h * Sign(deltaY);
        } else {
          delta := y - anchor;
          anchor := y;
        }
        ChangeTranslateY(delta);
        r := SelectCurrent();
      }
    }

    /** The event wiring: each device event goes to its handler; the handler's report is returned. */
    method OnEvent(ev: Input) returns (r: Option<Report>)
      requires Valid()
      modifies this`current, this`rendered, this`anchor, this`dragging
      ensures State() == Step(Cfg(), AsWritten, old(State()), ev).next
      ensures r == Announce(name, Step(Cfg(), AsWritten, old(State()), ev).reported)
    {
      r := None;
      match ev
      case Press(y) => DragStart(y);
      case Move(y) => DragMove(y);
      case Lift => r := DragEnd();
      case WheelTurn(deltaY, y) => r := Wheel(deltaY, y);
    }

    /** Teardown: ends any drag session without reporting and ignores every later event. */
    method Destroy()
      modifies this`dragging, this`live
      ensures State() == old(State()).(dragging := false, live := false)
    {
      dragging := false;
      live := false;
    }
  }

  class Picker {
    const hours: Selector
    const minutes: Selector
    /** The chosen time the selectors report into. */
    var chosen: Time

    ghost predicate Valid() {
      && hours != minutes && hours.Valid() && minutes.Valid()
      && hours.name == Hours && minutes.name == Minutes
      && hours.n == HoursFormat && minutes.n == MinuteCount
    }

    function Of(name: Column): Selector {
      if name == Hours then hours else minutes
    }

    /** Sets the chosen time to 00:00 and builds both columns starting from it. */
    constructor (hoursHeight: int, minutesHeight: int)
      requires Config(HoursFormat, hoursHeight).Valid() && Config(MinuteCount, minutesHeight).Valid()
      ensures Valid() && fresh(hours) && fresh(minutes)
      ensures chosen == Time(0, 0)
      ensures hours.State() == Initial(Config(HoursFormat, hoursHeight), Some(0))
      ensures minutes.State() == Initial(Config(MinuteCount, minutesHeight), Some(0))
    {
      var time := Time(0, 0);
      chosen := time;
      hours := new Selector(Hours, HoursFormat, hoursHeight, Some(time.hours));
      minutes := new Selector(Minutes, MinuteCount, minutesHeight, Some(time.minutes));
    }

    /** The selectors' callback: stores the reported value in the named field only. */
    method OnTimeSelect(data: Report)
      modifies this`chosen
      ensures chosen.hours == if data.selectorName == Hours then data.value else old(chosen.hours)
      ensures chosen.minutes == if data.selectorName == Minutes then data.value else old(chosen.minutes)
    {
      match data.selectorName
      case Hours => chosen := chosen.(hours := data.value);
      case Minutes => chosen := chosen.(minutes := data.value);
    }

    /**
      Delivers a device event to the named column and records what it reports.
      The other column is untouched.
     */
    method Dispatch(name: Column, ev: Input)
      requires Valid()
      modifies this`chosen, hours, minutes
      ensures Valid()
      ensures name == Hours ==> unchanged(minutes)
      ensures name == Minutes ==> unchanged(hours)
      ensures Of(name).startIndex == old(Of(name).startIndex)
      ensures Of(name).loggedRangeError == old(Of(name).loggedRangeError)
      ensures var tr := Step(Of(name).Cfg(), AsWritten, old(Of(name).State()), ev);
        && Of(name).State() == tr.next
        && chosen == match tr.reported
                     case None => old(chosen)
                     case Some(v) => Record(old(chosen), name, v)
    {
      var r := Of(name).OnEvent(ev);
      if r.Some? {
        OnTimeSelect(r.value);
      }
    }

    /** Tears both columns down. */
    method Destroy()
      requires Valid()
      modifies hours`dragging, hours`live, minutes`dragging, minutes`live
      ensures hours.State() == old(hours.State()).(dragging := false, live := false)
      ensures minutes.State() == old(minutes.State()).(dragging := false, live := false)
    {
      hours.Destroy();
      minutes.Destroy();
    }
  }
}
