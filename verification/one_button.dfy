/**
 * The one-button control policy of the pedal firmware: on each timer tick
 * the debounced switch reports whether it is held, was pressed twice, or
 * has just been released, and the handler turns that into at most one
 * state request to the engine, unwrapping the request's result.
 */
module OneButton {
  import opened Results
  import opened Engine

  /** What the debounced switch reports on one tick. */
  datatype Switch = Switch(held: bool, double: bool, falling: bool)

  /** The handler either leaves an engine behind or panics in `unwrap` on a
      refused request. */
  datatype Handled = Handled(next: Looper) | UnwrapPanicked(error: LooperError)

  /** The request the handler issues for the switch in the engine's current
      state, if any. A hold is checked first, then a double press, then a
      release, so a tick issues at most one request. */
  function Decide(state: LooperState, sw: Switch): (r: Option<LooperState>)
    // Every request issued is one the transition table accepts.
    ensures r.Some? ==> Legal(state, r.value)
    // Hold: Stop asks for Clear, Play asks for Undo, other states nothing.
    ensures sw.held ==>
      && (r == Some(Clear) <==> state == Stop)
      && (r == Some(Undo) <==> state == Play)
      && (r.None? <==> state != Stop && state != Play)
    // Double press: always Stop.
    ensures !sw.held && sw.double ==> r == Some(Stop)
    // Release: Record asks for Play, every other state for Record.
    ensures !sw.held && !sw.double && sw.falling ==>
      && (r == Some(Play) <==> state == Record)
      && (r == Some(Record) <==> state != Record)
    // No event: nothing.
    ensures !sw.held && !sw.double && !sw.falling ==> r.None?
  {
    if sw.held then
      match state
      case Stop => Some(Clear)
      case Play => Some(Undo)
      case _ => None
    else if sw.double then
      Some(Stop)
    else if sw.falling then
      match state
      case Record => Some(Play)
      case Play => Some(Record)
      case Stop => Some(Record)
      case Clear => Some(Record)
      case Undo => Some(Record)
    else
      None
  }

  /** One tick of the handler: decide, update, unwrap. The unwrap never
      panics, and the engine invariant survives. */
  function InterfaceHandler(l: Looper, sw: Switch): (r: Handled)
    ensures r.Handled?
    ensures Valid(l) ==> Valid(r.next)
    ensures Decide(l.state, sw).None? ==> r.next == l
    ensures Decide(l.state, sw).Some? ==> r.next == Update(l, Decide(l.state, sw).value).next
  {
    match Decide(l.state, sw)
    case None => Handled(l)
    case Some(requested) =>
      var t := Update(l, requested);
      match t.result
      case Ok(_) => Handled(t.next)
      case Err(e) => UnwrapPanicked(e)
  }

  /** `Decide` alone does not rule out the zero loop length: a release to
      record, one frame, a release to play, and the next frame panics on the
      remainder by zero, on any buffer of at least two samples. Whether the
      device's timing lets two single releases fall one frame apart is not
      part of this model. */
  lemma TapsReachRemainderByZero(buf1: seq<Sample>, buf2: Option<seq<Sample>>, x: Sample, y: Sample)
    requires buf2.Some? ==> |buf2.value| == |buf1|
    requires |buf1| >= 2
    ensures
      var tap := Switch(false, false, true);
      var armed := InterfaceHandler(New(buf1, buf2), tap).next;
      && armed.state == Record
      && Process(armed, x).Ok?
      && var playing := InterfaceHandler(Process(armed, x).value.next, tap).next;
      && playing.state == Play
      && playing.tail == 0
      && Process(playing, y) == Err(RemainderByZero)
  {
  }
}
