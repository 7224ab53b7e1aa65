/** The confirmed-pivot swing and its Fibonacci levels (scripts/run_htf_fib_backtest.py). */
module Swing {
  import opened Wrappers

  datatype Kind = High | Low

  datatype PivotEvent = PivotEvent(confirmationTime: int, pivotTime: int, kind: Kind, price: real)

  /** The fields of `SwingState`. */
  datatype Swing = Swing(
    lastKind: Option<Kind>, lastPrice: real, lastTime: int,
    high: Option<real>, highTime: int, low: Option<real>, lowTime: int,
    direction: int, version: int, fib618: Option<real>, fib786: Option<real>)

  const NEW_SWING := Swing(None, 0.0, 0, None, 0, None, 0, 0, 0, None, None)

  /** `_set_fib`: the new state, and whether the levels changed. */
  function SetFib(s: Swing): (Swing, bool)
  {
    if s.high.None? || s.low.None? || s.high.value <= s.low.value then (s, false)
    else
      var range := s.high.value - s.low.value;
      if s.direction == 1 then
        (s.(fib618 := Some(s.high.value - range * 0.618), fib786 := Some(s.high.value - range * 0.786),
            version := s.version + 1), true)
      else if s.direction == -1 then
        (s.(fib618 := Some(s.low.value + range * 0.618), fib786 := Some(s.low.value + range * 0.786),
            version := s.version + 1), true)
      else (s, false)
  }

  predicate MoreExtreme(s: Swing, e: PivotEvent)
  {
    if e.kind == High then e.price > s.lastPrice else e.price < s.lastPrice
  }

  function Remember(s: Swing, e: PivotEvent): Swing
  {
    s.(lastKind := Some(e.kind), lastPrice := e.price, lastTime := e.pivotTime)
  }

  function Update(s: Swing, e: PivotEvent): (Swing, bool)
  {
    if s.lastKind.None? then (Remember(s, e), false)
    else if s.lastKind.value == e.kind then
      if !MoreExtreme(s, e) then (s, false)
      else
        var r := s.(lastPrice := e.price, lastTime := e.pivotTime);
        if e.kind == High && s.direction == 1 then SetFib(r.(high := Some(e.price), highTime := e.pivotTime))
        else if e.kind == Low && s.direction == -1 then SetFib(r.(low := Some(e.price), lowTime := e.pivotTime))
        else (r, false)
    else if e.kind == High && e.price > s.lastPrice then
      SetFib(Remember(s.(low := Some(s.lastPrice), lowTime := s.lastTime, high := Some(e.price),
                         highTime := e.pivotTime, direction := 1), e))
    else if e.kind == Low && e.price < s.lastPrice then
      SetFib(Remember(s.(high := Some(s.lastPrice), highTime := s.lastTime, low := Some(e.price),
                         lowTime := e.pivotTime, direction := -1), e))
    else (Remember(s, e), false)
  }

  function Invalidate(s: Swing): Swing
  {
    s.(direction := 0, high := None, highTime := 0, low := None, lowTime := 0,
       fib618 := None, fib786 := None, version := s.version + 1)
  }

  /** The mutable state of the source. Missing times are kept as 0 next to a missing price. */
  class SwingState {
    var lastKind: Option<Kind>
    var lastPrice: real
    var lastTime: int
    var high: Option<real>
    var highTime: int
    var low: Option<real>
    var lowTime: int
    var direction: int
    var version: int
    var fib618: Option<real>
    var fib786: Option<real>

    ghost function State(): Swing
      reads this
    {
      Swing(lastKind, lastPrice, lastTime, high, highTime, low, lowTime, direction, version, fib618, fib786)
    }

    constructor ()
      ensures State() == NEW_SWING
    {
      lastKind, lastPrice, lastTime := None, 0.0, 0;
      high, highTime, low, lowTime := None, 0, None, 0;
      direction, version, fib618, fib786 := 0, 0, None, None;
    }

    method UpdateFib() returns (changed: bool)
      modifies this
      ensures (State(), changed) == SetFib(old(State()))
    {
      if high.None? || low.None? || high.value <= low.value {
        return false;
      }
      var range := high.value - low.value;
      if direction == 1 {
        fib618 := Some(high.value - range * 0.618);
        fib786 := Some(high.value - range * 0.786);
      } else if direction == -1 {
        fib618 := Some(low.value + range * 0.618);
        fib786 := Some(low.value + range * 0.786);
      } else {
        return false;
      }
      version := version + 1;
      return true;
    }

    method Consume(e: PivotEvent) returns (changed: bool)
      modifies this
      ensures (State(), changed) == Update(old(State()), e)
    {
      if lastKind.None? {
        lastKind, lastPrice, lastTime := Some(e.kind), e.price, e.pivotTime;
        return false;
      }
      if e.kind == lastKind.value {
        var moreExtreme := (e.kind == High && e.price > lastPrice) || (e.kind == Low && e.price < lastPrice);
        if !moreExtreme {
          return false;
        }
        lastPrice, lastTime := e.price, e.pivotTime;
        if e.kind == High && direction == 1 {
          high, highTime := Some(e.price), e.pivotTime;
          changed := UpdateFib();
          return;
        }
        if e.kind == Low && direction == -1 {
          low, lowTime := Some(e.price), e.pivotTime;
          changed := UpdateFib();
          return;
        }
        return false;
      }
      if e.kind == High && e.price > lastPrice {
        low, lowTime := Some(lastPrice), lastTime;
        high, highTime := Some(e.price), e.pivotTime;
        direction := 1;
      } else if e.kind == Low && e.price < lastPrice {
        high, highTime := Some(lastPrice), lastTime;
        low, lowTime := Some(e.price), e.pivotTime;
        direction := -1;
      } else {
        lastKind, lastPrice, lastTime := Some(e.kind), e.price, e.pivotTime;
        return false;
      }
      lastKind, lastPrice, lastTime := Some(e.kind), e.price, e.pivotTime;
      changed := UpdateFib();
    }

    method Reset()
      modifies this
      ensures State() == Invalidate(old(State()))
    {
      direction := 0;
      high, highTime, low, lowTime := None, 0, None, 0;
      fib618, fib786 := None, None;
      version := version + 1;
    }
  }
}
