/**
 * The looper engine of the pedal: two equal-length sample buffers, a
 * five-state controller, a cursor `index`, a loop length `tail` and the
 * latch flag `isLooping`. Both operations are pure: `Process` returns the
 * next engine and the output sample (or the panic the device would hit),
 * `Update` returns the next engine together with the transition's result.
 */
module Engine {
  import opened Results

  /** A sample. The device uses `f32`; the engine only copies and adds them. */
  type Sample = real

  datatype LooperState = Record | Play | Undo | Stop | Clear

  datatype LooperError = InvalidStateTransition

  /** The ways `process` can abort the program: a slice index past the end,
      or the cursor update taken modulo a zero `tail`. */
  datatype Panic = IndexOutOfBounds | RemainderByZero

  /** The engine. `buf1` is the primary buffer (always present), `buf2` the
      optional shadow buffer that holds the pre-overdub snapshot for undo. */
  datatype Looper = Looper(
    buf1: seq<Sample>,
    buf2: Option<seq<Sample>>,
    state: LooperState,
    index: nat,
    tail: nat,
    isLooping: bool)

  /** What one call of `process` leaves behind. */
  datatype Step = Step(next: Looper, output: Sample)

  /** What one call of `update` leaves behind: the engine (which `update`
      mutates in place) and the value it returns. */
  datatype Transition = Transition(next: Looper, result: Result<(), LooperError>)

  /** The states in which `process` reads the loop and advances the cursor. */
  predicate Advancing(s: LooperState) {
    s == Record || s == Play || s == Undo
  }

  /** The transition table: which requests `update` accepts from which state. */
  predicate Legal(from: LooperState, to: LooperState) {
    match to
    case Record => from != Record
    case Play => from == Record
    case Undo => true
    case Stop => true
    case Clear => true
  }

  /** The physical buffer length `N`. */
  function Size(l: Looper): nat {
    |l.buf1|
  }

  /** The invariant every engine built by `New` from a non-empty buffer keeps:
      the shadow has the primary's length, `tail` and `index` stay within the
      buffer, the loop length is the full buffer until it is latched, and the
      playback states are only entered once the loop is latched. */
  predicate Valid(l: Looper) {
    && |l.buf1| >= 1
    && (l.buf2.Some? ==> |l.buf2.value| == |l.buf1|)
    && l.tail <= |l.buf1|
    && l.index < |l.buf1|
    && (!l.isLooping ==> l.tail == |l.buf1|)
    && ((l.state == Play || l.state == Undo) ==> l.isLooping)
  }

  /** `b` is `a` with cell `i` replaced by `x` and every other cell kept. */
  predicate OverwrittenAt(a: seq<Sample>, b: seq<Sample>, i: nat, x: Sample) {
    && |b| == |a|
    && i < |a|
    && b[i] == x
    && forall j :: 0 <= j < |a| && j != i ==> b[j] == a[j]
  }

  /** `b` holds the buffers of `a` with the primary and shadow roles
      exchanged; with no shadow buffer both engines hold the same buffer. */
  predicate SwappedRoles(a: Looper, b: Looper) {
    match a.buf2
    case None => b.buf1 == a.buf1 && b.buf2.None?
    case Some(shadow) => b.buf1 == shadow && b.buf2 == Some(a.buf1)
  }

  /** `b` differs from `a` at most in its buffers. */
  predicate SameControl(a: Looper, b: Looper) {
    a.state == b.state && a.index == b.index && a.tail == b.tail && a.isLooping == b.isLooping
  }

  /** Construction: the primary buffer, the optional shadow buffer of the same
      length, and the cleared configuration with the full-buffer loop length. */
  function New(buf1: seq<Sample>, buf2: Option<seq<Sample>>): (l: Looper)
    requires buf2.Some? ==> |buf2.value| == |buf1|
    ensures l.buf1 == buf1 && l.buf2 == buf2
    ensures l.state == Clear && l.index == 0 && !l.isLooping
    ensures l.tail == Size(l) == |buf1|
    ensures |buf1| >= 1 ==> Valid(l)
  {
    Looper(buf1, buf2, Clear, 0, |buf1|, false)
  }

  /** Exchanges the primary and shadow roles without copying any sample. */
  function SwapBuf(l: Looper): (r: Looper)
    ensures SwappedRoles(l, r)
    ensures SameControl(l, r)
    ensures l.buf2.None? ==> r == l
    ensures Valid(l) ==> Valid(r)
  {
    match l.buf2
    case None => l
    case Some(shadow) => l.(buf1 := shadow, buf2 := Some(l.buf1))
  }

  /** Two swaps in a row give every buffer its original role back. */
  lemma SwapBufTwice(l: Looper)
    ensures SwapBuf(SwapBuf(l)) == l
  {
  }

  /** One audio frame: the write of Record (overwrite before the loop is
      latched, overdub after), then, in Record, Play and Undo, the read-back
      of the loop and the cursor advance modulo `tail`. */
  function Process(l: Looper, input: Sample): (r: Result<Step, Panic>)
    // Stop and Clear pass the input through and touch nothing.
    ensures !Advancing(l.state) ==> r == Ok(Step(l, input))
    // In a valid engine no buffer access is out of bounds: the only panic
    // left is the cursor update modulo a zero loop length.
    ensures Valid(l) ==> (r.Err? <==> Advancing(l.state) && l.tail == 0)
    ensures Valid(l) && r.Err? ==> r.error == RemainderByZero
    ensures Valid(l) && r.Ok? ==> Valid(r.value.next) && Size(r.value.next) == Size(l)
    // The advancing states move the cursor one step round the loop and
    // change no control field.
    ensures r.Ok? && Advancing(l.state) ==>
      && l.tail > 0
      && r.value.next.index == (l.index + 1) % l.tail
      && r.value.next.state == l.state
      && r.value.next.tail == l.tail
      && r.value.next.isLooping == l.isLooping
    // Unlatched Record overwrites the cursor cell of both buffers and
    // outputs the input alone.
    ensures r.Ok? && l.state == Record && !l.isLooping ==>
      && OverwrittenAt(l.buf1, r.value.next.buf1, l.index, input)
      && r.value.next.buf2.Some? == l.buf2.Some?
      && (l.buf2.Some? ==> OverwrittenAt(l.buf2.value, r.value.next.buf2.value, l.index, input))
      && r.value.output == input
    // Latched Record adds the input onto the primary's cursor cell, leaves
    // the shadow alone, and reads back the cell it has just written.
    ensures r.Ok? && l.state == Record && l.isLooping ==>
      && l.index < |l.buf1|
      && OverwrittenAt(l.buf1, r.value.next.buf1, l.index, l.buf1[l.index] + input)
      && r.value.next.buf2 == l.buf2
      && r.value.output == input + (l.buf1[l.index] + input)
    // Play and Undo write no buffer; they mix the loop under the input once
    // it is latched.
    ensures r.Ok? && (l.state == Play || l.state == Undo) ==>
      && r.value.next.buf1 == l.buf1
      && r.value.next.buf2 == l.buf2
      && (!l.isLooping ==> r.value.output == input)
      && (l.isLooping ==> l.index < |l.buf1| && r.value.output == input + l.buf1[l.index])
  {
    if l.state == Record && l.index >= |l.buf1| then
      Err(IndexOutOfBounds)
    else if l.state == Record && !l.isLooping && l.buf2.Some? && l.index >= |l.buf2.value| then
      Err(IndexOutOfBounds)
    else
      var w :=
        if l.state != Record then l
        else if !l.isLooping then
          l.(buf1 := l.buf1[l.index := input],
             buf2 := match l.buf2
                     case None => None
                     case Some(shadow) => Some(shadow[l.index := input]))
        else
          l.(buf1 := l.buf1[l.index := l.buf1[l.index] + input]);
      if !Advancing(w.state) then
        Ok(Step(w, input))
      else if w.isLooping && w.index >= |w.buf1| then
        Err(IndexOutOfBounds)
      else if w.tail == 0 then
        Err(RemainderByZero)
      else
        var output := if w.isLooping then input + w.buf1[w.index] else input;
        Ok(Step(w.(index := (w.index + 1) % w.tail), output))
  }

  /** A state-transition request. A refused request returns
      `InvalidStateTransition` and leaves the engine exactly as it was. */
  function Update(l: Looper, requested: LooperState): (r: Transition)
    // The table decides success; failure changes nothing.
    ensures r.result.Ok? <==> Legal(l.state, requested)
    ensures r.result.Err? ==> r.result.error == InvalidStateTransition && r.next == l
    ensures Valid(l) ==> Valid(r.next) && Size(r.next) == Size(l)
    // The reported state after a successful request.
    ensures r.result.Ok? && requested != Undo ==> r.next.state == requested
    ensures requested == Undo ==> r.next.state == (if l.state == Play then Undo else l.state)
    // Which successful requests exchange the buffer roles, and that the
    // others leave both buffers where they were.
    ensures r.result.Ok? && (requested == Undo || (requested == Record && l.state != Undo)) ==>
      SwappedRoles(l, r.next)
    ensures requested == Play || requested == Stop || requested == Clear
            || (requested == Record && l.state == Undo) ==>
      r.next.buf1 == l.buf1 && r.next.buf2 == l.buf2
    // Without a shadow buffer no request moves a buffer.
    ensures l.buf2.None? ==> r.next.buf1 == l.buf1 && r.next.buf2.None?
    // The cursor moves only on Clear.
    ensures requested != Clear ==> r.next.index == l.index
    // Clear resets the cursor, the full loop length and the latch.
    ensures requested == Clear ==>
      r.next.index == 0 && r.next.tail == Size(l) && !r.next.isLooping
    // Record -> Play latches the loop length once.
    ensures requested == Play && l.state == Record ==>
      && r.next.isLooping
      && r.next.tail == (if !l.isLooping && l.index > 0 then l.index - 1 else l.tail)
    // Every other request keeps the loop length and the latch.
    ensures requested != Clear && !(requested == Play && l.state == Record) ==>
      r.next.tail == l.tail && r.next.isLooping == l.isLooping
    // Once latched, only Clear can change the loop length.
    ensures l.isLooping && requested != Clear ==> r.next.isLooping && r.next.tail == l.tail
    // The loop length becomes zero exactly when a first latch happens at
    // cursor 1, or stays zero when it already was and nothing clears it.
    ensures Valid(l) ==>
      (r.next.tail == 0 <==>
        (l.tail == 0 && requested != Clear)
        || (requested == Play && l.state == Record && !l.isLooping && l.index == 1))
  {
    match requested
    case Record =>
      if l.state == Stop || l.state == Clear || l.state == Play || l.state == Undo then
        var swapped := if l.state != Undo then SwapBuf(l) else l;
        Transition(swapped.(state := Record), Ok(()))
      else
        Transition(l, Err(InvalidStateTransition))
    case Play =>
      if l.state == Record then
        var latched :=
          if !l.isLooping then
            l.(isLooping := true, tail := if l.index > 0 then l.index - 1 else l.tail)
          else l;
        Transition(latched.(state := Play), Ok(()))
      else
        Transition(l, Err(InvalidStateTransition))
    case Undo =>
      var marked := if l.state == Play then l.(state := Undo) else l;
      Transition(SwapBuf(marked), Ok(()))
    case Stop =>
      Transition(l.(state := Stop), Ok(()))
    case Clear =>
      Transition(l.(index := 0, tail := |l.buf1|, isLooping := false, state := Clear), Ok(()))
  }

  /** One thing that happens to the engine: an audio frame or a request. */
  datatype Event = Tick(input: Sample) | Request(requested: LooperState)

  /** The engine after a run of events, and the samples it output. */
  datatype Trace = Trace(last: Looper, outputs: seq<Sample>)

  /** The number of audio frames among the events. */
  function Frames(events: seq<Event>): nat
    decreases |events|
  {
    if |events| == 0 then 0
    else (if events[0].Tick? then 1 else 0) + Frames(events[1..])
  }

  /** Feeds the events to the engine in order; a panic in `process` ends the
      run. A refused request leaves the engine unchanged (see `Update`), so
      the run continues from the same engine. The firmware's handler instead
      unwraps every result, and never issues a refused request. */
  function Run(l: Looper, events: seq<Event>): (r: Result<Trace, Panic>)
    // A completed run outputs exactly one sample per audio frame.
    ensures r.Ok? ==> |r.value.outputs| == Frames(events)
    // The invariant, and with it tail <= N and index < N, holds throughout.
    ensures Valid(l) && r.Ok? ==> Valid(r.value.last) && Size(r.value.last) == Size(l)
    decreases |events|
  {
    if |events| == 0 then
      Ok(Trace(l, []))
    else
      match events[0]
      case Request(s) =>
        Run(Update(l, s).next, events[1..])
      case Tick(x) =>
        match Process(l, x)
        case Err(p) => Err(p)
        case Ok(step) =>
          match Run(step.next, events[1..])
          case Err(p) => Err(p)
          case Ok(t) => Ok(Trace(t.last, [step.output] + t.outputs))
  }
}
