/**
 * html/js/lib/trackbar.js: a slider whose value is kept between a minimum
 * and a maximum. A one-finger touch sets the value from the finger's
 * horizontal page position, and moving that finger updates it; every
 * change dispatches `valuechanged`. The conversion from a page position to
 * a value (`_xToValue`, which reads the element geometry) is a parameter.
 */
module Trackbar {
  import opened Wrappers
  import opened Util

  /**
   * The numbers a trackbar holds: an attribute may evaluate to `null`,
   * which compares and adds as 0 but is kept as it is, and arithmetic on
   * `undefined` gives NaN, which every comparison rejects.
   */
  datatype Num = NaN | Null | Real(x: real)

  /** `Number(n)`, None for NaN. */
  function ToNumber(n: Num): (r: Option<real>)
    ensures r.None? <==> n.NaN?
  {
    match n
    case NaN => None
    case Null => Some(0.0)
    case Real(x) => Some(x)
  }

  /** `a < b` */
  predicate Less(a: Num, b: Num)
  {
    ToNumber(a).Some? && ToNumber(b).Some? && ToNumber(a).value < ToNumber(b).value
  }

  /** `n + d` */
  function Add(n: Num, d: real): (r: Num)
    ensures r.NaN? <==> n.NaN?
  {
    if n.NaN? then NaN else Real(ToNumber(n).value + d)
  }

  /** The clamp of the constructor and of `setValue`: below the minimum gives the minimum, above the maximum the maximum. */
  function Clamp(value: Num, min: Num, max: Num): (r: Num)
    ensures r == value || r == min || r == max
    ensures value.NaN? ==> r == NaN
  {
    if Less(value, min) then min else if Less(max, value) then max else value
  }

  /** Whether a number lies in [min, max]. */
  predicate Within(value: Num, min: real, max: real)
  {
    ToNumber(value).Some? && min <= ToNumber(value).value <= max
  }

  /**
   * With a minimum not above the maximum, any number other than NaN is
   * brought into range, and one already in range is kept.
   */
  lemma ClampInRange(value: Num, min: real, max: real)
    requires min <= max && !value.NaN?
    ensures Within(Clamp(value, Real(min), Real(max)), min, max)
    ensures Within(value, min, max) ==> Clamp(value, Real(min), Real(max)) == value
    ensures Less(value, Real(min)) ==> Clamp(value, Real(min), Real(max)) == Real(min)
    ensures Less(Real(max), value) ==> Clamp(value, Real(min), Real(max)) == Real(max)
  {
  }

  /**
   * The `load` handler's reading of the `value`, `min-value` and
   * `max-value` attributes, as evaluated: NaN gives 0, 0 and the minimum
   * plus 1; anything else, `null` included, is kept.
   */
  function Defaults(value: Num, min: Num, max: Num): (r: (Num, Num, Num))
    ensures !value.NaN? ==> r.0 == value
    ensures !min.NaN? ==> r.1 == min
    ensures !max.NaN? ==> r.2 == max
    ensures value.NaN? ==> r.0 == Real(0.0)
    ensures min.NaN? ==> r.1 == Real(0.0)
    ensures max.NaN? ==> r.2 == Add(r.1, 1.0)
  {
    var v := if value.NaN? then Real(0.0) else value;
    var lo := if min.NaN? then Real(0.0) else min;
    var hi := if max.NaN? then Add(lo, 1.0) else max;
    (v, lo, hi)
  }

  /**
   * Attributes that evaluate to NaN give a trackbar over [0, 1] at 0; a
   * missing attribute evaluates to `null`, which is kept, so a trackbar
   * without attributes has `null` for all three.
   */
  lemma DefaultsCases()
    ensures Defaults(NaN, NaN, NaN) == (Real(0.0), Real(0.0), Real(1.0))
    ensures Defaults(Null, Null, Null) == (Null, Null, Null)
    ensures Defaults(NaN, Null, NaN) == (Real(0.0), Null, Real(1.0))
  {
  }

  /**
   * A trackbar's fields: its value, bounds, the active class, the tracked
   * touch, and the trackbar's value at each `valuechanged` dispatch (the
   * event carries nothing; listeners read `value()`).
   */
  datatype Bar = Bar(value: Num, min: Num, max: Num, active: bool, touch: Option<Clone>, changes: seq<Num>)

  /** The trackbar's promise that `value()` lies between the bounds. */
  predicate Valid(b: Bar)
  {
    b.min.Real? && b.max.Real? && b.min.x <= b.max.x && Within(b.value, b.min.x, b.max.x)
  }

  /** A new trackbar, with its value clamped. */
  function Created(value: Num, min: Num, max: Num): (r: Bar)
    ensures r.min == min && r.max == max && !r.active && r.touch.None? && r.changes == []
  {
    Bar(Clamp(value, min, max), min, max, false, None, [])
  }

  /** `setValue(value)`: the clamped value is stored and `valuechanged` is dispatched. */
  function SetTo(b: Bar, value: Num): (r: Bar)
    ensures r.value == Clamp(value, b.min, b.max) && r.changes == b.changes + [r.value]
    ensures r.min == b.min && r.max == b.max && r.active == b.active && r.touch == b.touch
  {
    var v := Clamp(value, b.min, b.max);
    b.(value := v, changes := b.changes + [v])
  }

  /**
   * `onTouchStart(event)` as written: the value is set from the `pageX`
   * of the copy made by `cloneTouches`, which has none, so the position is
   * `undefined` and the value NaN. False where it raises TypeError (no
   * touch at all).
   */
  function StartAsWritten(b: Bar, touches: seq<Touch>): (Bar, bool)
  {
    if |touches| > 1 then (b, true)
    else if touches == [] then (b.(active := true, touch := None), false)
    else (SetTo(b.(active := true, touch := Some(Copy(touches[0]))), NaN), true)
  }

  /** `onTouchStart(event)` reading the position from the touch itself. */
  function Start(xToValue: real -> real, b: Bar, touches: seq<Touch>): (Bar, bool)
  {
    if |touches| > 1 then (b, true)
    else if touches == [] then (b.(active := true, touch := None), false)
    else (SetTo(b.(active := true, touch := Some(Copy(touches[0]))), Real(xToValue(touches[0].pageX))), true)
  }

  /**
   * `onTouchEnd(event)`: the trackbar is no longer active and tracks no
   * touch; its value and bounds stay and nothing is dispatched.
   */
  function End(b: Bar): (r: Bar)
    ensures !r.active && r.touch.None?
    ensures r.value == b.value && r.min == b.min && r.max == b.max && r.changes == b.changes
  {
    b.(active := false, touch := None)
  }

  /**
   * `onTouchMove(event)`: the tracked touch, when it moved, sets the value
   * from its position. A move never changes the bounds, the active class
   * or the touch tracked, and dispatches at most the one new value.
   */
  function Move(xToValue: real -> real, b: Bar, changed: Option<seq<Touch>>): (r: Bar)
    ensures r.min == b.min && r.max == b.max && r.active == b.active && r.touch == b.touch
    ensures r.changes == b.changes || r.changes == b.changes + [r.value]
    ensures r.changes == b.changes ==> r == b
  {
    if b.touch.None? || changed.None? then b
    else match Identified(changed.value, b.touch.value.identifier)
      case None => b
      case Some(t) => SetTo(b, Real(xToValue(t.pageX)))
  }

  /** A trackbar made with a minimum not above its maximum and a value other than NaN is valid. */
  lemma CreatedValid(value: Num, min: real, max: real)
    requires min <= max && !value.NaN?
    ensures Valid(Created(value, Real(min), Real(max)))
  {
    ClampInRange(value, min, max);
  }

  /** `setValue` keeps the value in range whatever it is given, NaN aside. */
  lemma SetToValid(b: Bar, value: Num)
    requires Valid(b) && !value.NaN?
    ensures Valid(SetTo(b, value))
    ensures Within(value, b.min.x, b.max.x) ==> SetTo(b, value).value == value
  {
    ClampInRange(value, b.min.x, b.max.x);
  }

  /**
   * A touch with more than one finger is ignored; one finger makes the
   * trackbar active, tracks that finger and sets the value in range from
   * its position.
   */
  lemma StartValid(xToValue: real -> real, b: Bar, touches: seq<Touch>)
    requires Valid(b)
    ensures var (r, ok) := Start(xToValue, b, touches); Valid(r) && (ok <==> touches != [])
    ensures |touches| > 1 ==> Start(xToValue, b, touches) == (b, true)
    ensures |touches| == 1 ==> var r := Start(xToValue, b, touches).0;
      r.active && r.touch == Some(Copy(touches[0])) && r.changes == b.changes + [r.value] &&
      r.value == Clamp(Real(xToValue(touches[0].pageX)), b.min, b.max)
  {
    if |touches| == 1 {
      SetToValid(b.(active := true, touch := Some(Copy(touches[0]))), Real(xToValue(touches[0].pageX)));
    }
  }

  /** As written, every one-finger touch leaves the trackbar at NaN, outside its range, and dispatches NaN. */
  lemma StartAsWrittenLosesValue(b: Bar, t: Touch)
    requires Valid(b)
    ensures var r := StartAsWritten(b, [t]).0; r.value == NaN && !Valid(r) && r.changes == b.changes + [NaN]
  {
  }

  /**
   * Moving changes nothing without a tracked touch, without changed
   * touches or when the tracked finger is not among them; otherwise the
   * value follows the finger and stays in range.
   */
  lemma MoveValid(xToValue: real -> real, b: Bar, changed: Option<seq<Touch>>)
    requires Valid(b)
    ensures Valid(Move(xToValue, b, changed))
    ensures b.touch.None? || changed.None? ==> Move(xToValue, b, changed) == b
    ensures b.touch.Some? && changed.Some? && Identified(changed.value, b.touch.value.identifier).None? ==>
      Move(xToValue, b, changed) == b
    ensures b.touch.Some? && changed.Some? && Identified(changed.value, b.touch.value.identifier).Some? ==>
      var t := Identified(changed.value, b.touch.value.identifier).value;
      Move(xToValue, b, changed) == SetTo(b, Real(xToValue(t.pageX)))
  {
    if b.touch.Some? && changed.Some? {
      match Identified(changed.value, b.touch.value.identifier)
      case None =>
      case Some(t) => SetToValid(b, Real(xToValue(t.pageX)));
    }
  }

  /** Lifting the finger keeps the value and stops tracking, so later moves change nothing. */
  lemma EndStopsTracking(xToValue: real -> real, b: Bar, changed: Option<seq<Touch>>)
    ensures End(b).value == b.value && !End(b).active
    ensures Valid(b) ==> Valid(End(b))
    ensures Move(xToValue, End(b), changed) == End(b)
  {
  }

  /** The trackbar widget. */
  class Trackbar {
    const min: Num
    const max: Num
    var value: Num
    var active: bool
    var touch: Option<Clone>
    var changes: seq<Num>

    function State(): Bar
      reads this
    {
      Bar(value, min, max, active, touch, changes)
    }

    /** `new Trackbar(parentEl, value, minValue, maxValue)` */
    constructor(value: Num, minValue: Num, maxValue: Num)
      ensures State() == Created(value, minValue, maxValue)
    {
      this.value := if Less(value, minValue) then minValue else if Less(maxValue, value) then maxValue else value;
      min := minValue;
      max := maxValue;
      active := false;
      touch := None;
      changes := [];
    }

    /** `value()`: the stored value. */
    function Value(): (r: Num)
      reads this
      ensures Valid(State()) ==> Within(r, min.x, max.x)
    {
      value
    }

    /** `setValue(value)` */
    method SetValue(value: Num)
      modifies this
      ensures State() == SetTo(old(State()), value)
    {
      this.value := if Less(value, min) then min else if Less(max, value) then max else value;
      changes := changes + [this.value];
    }

    /** `onTouchStart(event)`; false where it raises TypeError. */
    method OnTouchStart(xToValue: real -> real, touches: seq<Touch>) returns (ok: bool)
      modifies this
      ensures (State(), ok) == Start(xToValue, old(State()), touches)
    {
      if |touches| > 1 {
        return true;
      }
      active := true;
      var cloned := CloneTouches(Some(touches));
      if cloned == [] {
        touch := None;
        return false;
      }
      touch := Some(cloned[0]);
      SetValue(Real(xToValue(touches[0].pageX)));
      ok := true;
    }

    /** `onTouchEnd(event)` */
    method OnTouchEnd()
      modifies this
      ensures State() == End(old(State()))
    {
      active := false;
      touch := None;
    }

    /** `onTouchMove(event)` */
    method OnTouchMove(xToValue: real -> real, changed: Option<seq<Touch>>)
      modifies this
      ensures State() == Move(xToValue, old(State()), changed)
    {
      if touch.None? || changed.None? {
        return;
      }
      var t := Identified(changed.value, touch.value.identifier);
      if t.None? {
        return;
      }
      SetValue(Real(xToValue(t.value.pageX)));
    }
  }
}
