/**
 * Properties of the engine over runs of frames and requests: how runs
 * compose, that a latched non-zero loop never panics until it is cleared,
 * and what the first latch at `index - 1` does to a first pass of `k`
 * frames from cursor 0: a zero loop length and a panic on the next frame
 * when `k == 1`, and a loop one sample shorter than the pass when
 * `1 < k < N`. A pass that fills the whole buffer wraps the cursor to 0
 * and keeps the full length.
 */
module Runs {
  import opened Results
  import opened Engine

  /** No event of the run asks for Clear. */
  predicate NoClear(events: seq<Event>) {
    forall i :: 0 <= i < |events| ==> events[i] != Request(Clear)
  }

  /** Running `a` then `b` is running `a + b`: outputs concatenate and a
      panic in either part is the panic of the whole. */
  lemma {:induction false} RunAppend(l: Looper, a: seq<Event>, b: seq<Event>)
    ensures Run(l, a + b) ==
      match Run(l, a)
      case Err(p) => Err(p)
      case Ok(t) =>
        match Run(t.last, b)
        case Err(p) => Err(p)
        case Ok(u) => Ok(Trace(u.last, t.outputs + u.outputs))
    decreases |a|
  {
    if |a| == 0 {
      assert a + b == b;
      match Run(l, b)
      case Err(p) =>
      case Ok(u) =>
        assert [] + u.outputs == u.outputs;
    } else {
      assert (a + b)[0] == a[0];
      assert (a + b)[1..] == a[1..] + b;
      match a[0]
      case Request(s) =>
        RunAppend(Update(l, s).next, a[1..], b);
      case Tick(x) =>
        match Process(l, x)
        case Err(p) =>
        case Ok(step) =>
          RunAppend(step.next, a[1..], b);
          match Run(step.next, a[1..])
          case Err(p) =>
          case Ok(t) =>
            match Run(t.last, b)
            case Err(p) =>
            case Ok(u) =>
              assert [step.output] + (t.outputs + u.outputs) == ([step.output] + t.outputs) + u.outputs;
    }
  }

  /** Once a loop is latched, only Clear can change its length or unlatch it. */
  lemma {:induction false} LatchedLoopStable(l: Looper, events: seq<Event>)
    requires l.isLooping
    requires NoClear(events)
    ensures Run(l, events).Ok? ==>
      Run(l, events).value.last.isLooping && Run(l, events).value.last.tail == l.tail
    decreases |events|
  {
    if |events| > 0 {
      assert NoClear(events[1..]) by {
        forall i | 0 <= i < |events[1..]| ensures events[1..][i] != Request(Clear) {
          assert events[1..][i] == events[i + 1];
        }
      }
      match events[0]
      case Request(s) =>
        LatchedLoopStable(Update(l, s).next, events[1..]);
      case Tick(x) =>
        match Process(l, x)
        case Err(p) =>
        case Ok(step) =>
          LatchedLoopStable(step.next, events[1..]);
    }
  }

  /** A valid engine with a latched, non-zero loop never panics until the
      loop is cleared: every frame of the run is processed. */
  lemma {:induction false} LatchedLoopNeverPanics(l: Looper, events: seq<Event>)
    requires Valid(l) && l.isLooping && l.tail > 0
    requires NoClear(events)
    ensures Run(l, events).Ok?
    decreases |events|
  {
    if |events| > 0 {
      assert NoClear(events[1..]) by {
        forall i | 0 <= i < |events[1..]| ensures events[1..][i] != Request(Clear) {
          assert events[1..][i] == events[i + 1];
        }
      }
      match events[0]
      case Request(s) =>
        LatchedLoopNeverPanics(Update(l, s).next, events[1..]);
      case Tick(x) =>
        LatchedLoopNeverPanics(Process(l, x).value.next, events[1..]);
    }
  }

  /** The first latch sets the loop length to one less than the cursor, so
      recording a single frame and then playing leaves a zero loop length,
      and the next frame divides by it: a freshly built engine of any buffer
      length of at least two reaches the remainder-by-zero panic. */
  lemma RemainderByZeroReachable(buf1: seq<Sample>, buf2: Option<seq<Sample>>, x: Sample, y: Sample)
    requires buf2.Some? ==> |buf2.value| == |buf1|
    requires |buf1| >= 2
    ensures Run(New(buf1, buf2), [Request(Record), Tick(x), Request(Play), Tick(y)]) == Err(RemainderByZero)
  {
    var l0 := New(buf1, buf2);
    var l1 := Update(l0, Record).next;
    assert l1.index == 0 && l1.state == Record && !l1.isLooping && Valid(l1);
    var l2 := Process(l1, x).value.next;
    assert l2.index == 1;
    var l3 := Update(l2, Play).next;
    assert l3.tail == 0 && l3.state == Play;
    var events := [Request(Record), Tick(x), Request(Play), Tick(y)];
    assert events[1..][1..][1..] == [Tick(y)];
    assert Run(l3, [Tick(y)]) == Err(RemainderByZero);
    assert Run(l2, events[1..][1..]) == Err(RemainderByZero);
    assert Run(l1, events[1..]) == Err(RemainderByZero);
  }

  /** A run that starts with a request continues from the updated engine. */
  lemma RunRequestFirst(l: Looper, s: LooperState, rest: seq<Event>)
    ensures Run(l, [Request(s)] + rest) == Run(Update(l, s).next, rest)
  {
  }

  /** A run that starts with a processed frame outputs that frame's sample
      and continues from the engine it leaves. */
  lemma RunFrameFirst(l: Looper, x: Sample, rest: seq<Event>)
    requires Process(l, x).Ok?
    ensures
      var step := Process(l, x).value;
      Run(l, [Tick(x)] + rest) ==
        match Run(step.next, rest)
        case Err(p) => Err(p)
        case Ok(t) => Ok(Trace(t.last, [step.output] + t.outputs))
  {
  }

  /** One frame of unlatched recording succeeds, keeps the engine recording
      and unlatched, moves the cursor one step and leaves cell `j` alone
      when the cursor is elsewhere. */
  lemma UnlatchedRecordFrame(l: Looper, x: Sample, j: nat)
    requires Valid(l) && l.state == Record && !l.isLooping
    requires j < |l.buf1| && j != l.index
    ensures Process(l, x).Ok?
    ensures
      var n := Process(l, x).value.next;
      && Valid(n) && n.state == Record && !n.isLooping && n.tail == l.tail
      && n.index == (l.index + 1) % l.tail
      && (l.index + 1 < l.tail ==> n.index == l.index + 1)
      && n.buf1[j] == l.buf1[j]
  {
  }

  /** Two frames of unlatched recording from cursor 0 on a buffer of at
      least three samples leave the cursor at 2 and cell 2 untouched. */
  lemma TwoUnlatchedRecordFrames(l: Looper, x: Sample, y: Sample)
    requires Valid(l) && l.state == Record && !l.isLooping && l.index == 0
    requires |l.buf1| >= 3
    ensures Process(l, x).Ok?
    ensures Process(Process(l, x).value.next, y).Ok?
    ensures
      var n := Process(Process(l, x).value.next, y).value.next;
      && Valid(n) && n.state == Record && !n.isLooping
      && n.index == 2 && n.buf1[2] == l.buf1[2]
  {
    UnlatchedRecordFrame(l, x, 2);
    var l2 := Process(l, x).value.next;
    UnlatchedRecordFrame(l2, y, 2);
  }

  /** Recording two frames from a new engine and then playing latches a loop
      of length 1 with the cursor at 2, and leaves cell 2 as the primary
      buffer held it before recording. */
  lemma RecordTwoThenPlay(buf1: seq<Sample>, buf2: Option<seq<Sample>>, x: Sample, y: Sample)
    requires buf2.Some? ==> |buf2.value| == |buf1|
    requires |buf1| >= 3
    ensures
      var r := Run(New(buf1, buf2), [Request(Record), Tick(x), Tick(y), Request(Play)]);
      && r.Ok?
      && r.value.outputs == [x, y]
      && Valid(r.value.last)
      && r.value.last.state == Play
      && r.value.last.tail == 1
      && r.value.last.index == 2
      && r.value.last.buf1[2] == (if buf2.Some? then buf2.value[2] else buf1[2])
  {
    var before := if buf2.Some? then buf2.value[2] else buf1[2];
    var l1 := Update(New(buf1, buf2), Record).next;
    assert l1.index == 0 && l1.state == Record && !l1.isLooping && Valid(l1);
    assert l1.buf1[2] == before;
    TwoUnlatchedRecordFrames(l1, x, y);
    var l2 := Process(l1, x).value.next;
    var l3 := Process(l2, y).value.next;
    var l4 := Update(l3, Play).next;
    assert Run(l4, []) == Ok(Trace(l4, []));
    RunRequestFirst(l3, Play, []);
    RunFrameFirst(l2, y, [Request(Play)]);
    assert [y] + [] == [y];
    RunFrameFirst(l1, x, [Tick(y)] + [Request(Play)]);
    assert [x] + [y] == [x, y];
    RunRequestFirst(New(buf1, buf2), Record, [Tick(x)] + ([Tick(y)] + [Request(Play)]));
    assert [Request(Record)] + ([Tick(x)] + ([Tick(y)] + [Request(Play)]))
        == [Request(Record), Tick(x), Tick(y), Request(Play)];
  }

  /** The first latch keeps one sample fewer than were recorded. Recording
      two frames on a buffer of at least three samples and then playing
      latches a loop of length 1 with the cursor at 2, so the first frame of
      playback mixes in cell 2, which the recording pass never wrote: it
      still holds what the buffer now in the primary role held before. */
  lemma LatchDropsLastRecordedSample(buf1: seq<Sample>, buf2: Option<seq<Sample>>, x: Sample, y: Sample, z: Sample)
    requires buf2.Some? ==> |buf2.value| == |buf1|
    requires |buf1| >= 3
    ensures
      var before := if buf2.Some? then buf2.value[2] else buf1[2];
      var r := Run(New(buf1, buf2), [Request(Record), Tick(x), Tick(y), Request(Play), Tick(z)]);
      && r.Ok?
      && r.value.outputs == [x, y, z + before]
      && r.value.last.tail == 1
      && r.value.last.index == 0
  {
    var before := if buf2.Some? then buf2.value[2] else buf1[2];
    var prefix := [Request(Record), Tick(x), Tick(y), Request(Play)];
    RecordTwoThenPlay(buf1, buf2, x, y);
    var t := Run(New(buf1, buf2), prefix).value;
    var step := Process(t.last, z).value;
    assert step.output == z + before && step.next.index == 0 && step.next.tail == 1;
    assert [z + before] + [] == [z + before];
    assert Run(t.last, [Tick(z)]) == Ok(Trace(step.next, [z + before]));
    RunAppend(New(buf1, buf2), prefix, [Tick(z)]);
    assert prefix + [Tick(z)] == [Request(Record), Tick(x), Tick(y), Request(Play), Tick(z)];
    assert [x, y] + [z + before] == [x, y, z + before];
  }

  /** From a valid engine no run ever indexes a buffer out of bounds: the
      only panic a run can end in is the remainder by a zero loop length. */
  lemma {:induction false} RunNeverOutOfBounds(l: Looper, events: seq<Event>)
    requires Valid(l)
    ensures Run(l, events).Err? ==> Run(l, events).error == RemainderByZero
    decreases |events|
  {
    if |events| > 0 {
      match events[0]
      case Request(s) =>
        RunNeverOutOfBounds(Update(l, s).next, events[1..]);
      case Tick(x) =>
        match Process(l, x)
        case Err(p) =>
        case Ok(step) =>
          RunNeverOutOfBounds(step.next, events[1..]);
    }
  }

  /** When the first latch happens at cursor k >= 4, the loop length becomes
      k - 1 and the cursor lies past it: the first playback frame reads cell
      k, and the cursor then moves to (k + 1) % (k - 1) == 2, so that pass
      skips cells 0 and 1. */
  lemma LateLatchSkipsLoopStart(l: Looper, x: Sample)
    requires Valid(l) && l.state == Record && !l.isLooping && l.index >= 4
    ensures
      var p := Update(l, Play).next;
      && p.tail == l.index - 1
      && p.index == l.index
      && Process(p, x).Ok?
      && Process(p, x).value.output == x + l.buf1[l.index]
      && Process(p, x).value.next.index == 2
  {
    var p := Update(l, Play).next;
    assert p.tail == l.index - 1 && p.index == l.index && p.buf1 == l.buf1;
    assert Valid(p) && p.state == Play && p.isLooping;
    CursorPastShortLoop(l.index);
  }

  /** When the first latch happens at cursor 1, 2 or 3, the loop length
      becomes k - 1. At cursor 1 that length is 0 and the first playback
      frame panics on the remainder by zero; at cursor 2 or 3 that frame
      reads cell k and the cursor wraps to 0. */
  lemma EarlyLatchWrapsOrPanics(l: Looper, x: Sample)
    requires Valid(l) && l.state == Record && !l.isLooping && 1 <= l.index <= 3
    ensures
      var p := Update(l, Play).next;
      && p.tail == l.index - 1
      && p.index == l.index
      && (l.index == 1 ==> Process(p, x) == Err(RemainderByZero))
      && (l.index >= 2 ==>
            && Process(p, x).Ok?
            && Process(p, x).value.output == x + l.buf1[l.index]
            && Process(p, x).value.next.index == 0)
  {
    var p := Update(l, Play).next;
    assert p.tail == l.index - 1 && p.index == l.index && p.buf1 == l.buf1;
    assert Valid(p) && p.state == Play && p.isLooping;
  }

  /** The cursor k, one past a loop of length k - 1 >= 3, advances to 2. */
  lemma CursorPastShortLoop(k: nat)
    requires k >= 4
    ensures (k + 1) % (k - 1) == 2
  {
    assert k + 1 == 1 * (k - 1) + 2;
  }
}
