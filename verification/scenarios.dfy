/**
 * End-to-end behaviour of a four-sample engine with two zeroed buffers:
 * an unlatched recording pass, playback of the latched loop, one overdubbed
 * frame, and the undo that brings back the loop as it was before it. On a
 * two-sample latched loop, a second overdub pass that starts from the
 * snapshot taken before the first one.
 */
module Scenarios {
  import opened Results
  import opened Engine
  import Runs

  const Zeros: seq<Sample> := [0.0, 0.0, 0.0, 0.0]
  const Loop: seq<Sample> := [1.0, 2.0, 3.0, 4.0]

  /** Record the four samples 1, 2, 3, 4 and latch with Play. */
  const Recording: seq<Event> :=
    [Request(Record), Tick(1.0), Tick(2.0), Tick(3.0), Tick(4.0), Request(Play)]

  /** Four silent frames. */
  const Silence: seq<Event> := [Tick(0.0), Tick(0.0), Tick(0.0), Tick(0.0)]

  /** Overdub one frame of 1.0 at the start of the loop, play, then undo. */
  const OverdubThenUndo: seq<Event> :=
    [Request(Record), Tick(1.0), Request(Play), Request(Undo)]

  /** The engine once the four samples are recorded and the loop latched: the
      cursor has wrapped to 0, so the loop length stays the full buffer. */
  const Latched: Looper := Looper(Loop, Some(Loop), Play, 0, 4, true)

  /** Recording outputs the input alone (nothing is latched yet), fills both
      buffers, wraps the cursor to 0 and latches the full length. */
  lemma RecordingPass()
    ensures Run(New(Zeros, Some(Zeros)), Recording) == Ok(Trace(Latched, Loop))
  {
    var l0 := New(Zeros, Some(Zeros));
    var l1 := Looper(Zeros, Some(Zeros), Record, 0, 4, false);
    var l2 := Looper([1.0, 0.0, 0.0, 0.0], Some([1.0, 0.0, 0.0, 0.0]), Record, 1, 4, false);
    var l3 := Looper([1.0, 2.0, 0.0, 0.0], Some([1.0, 2.0, 0.0, 0.0]), Record, 2, 4, false);
    var l4 := Looper([1.0, 2.0, 3.0, 0.0], Some([1.0, 2.0, 3.0, 0.0]), Record, 3, 4, false);
    var l5 := Looper(Loop, Some(Loop), Record, 0, 4, false);
    assert Update(l0, Record).next == l1;
    assert Zeros[0 := 1.0] == l2.buf1;
    assert l2.buf1[1 := 2.0] == l3.buf1;
    assert l3.buf1[2 := 3.0] == l4.buf1;
    assert l4.buf1[3 := 4.0] == Loop;
    assert Process(l1, 1.0) == Ok(Step(l2, 1.0));
    assert Process(l2, 2.0) == Ok(Step(l3, 2.0));
    assert Process(l3, 3.0) == Ok(Step(l4, 3.0));
    assert Process(l4, 4.0) == Ok(Step(l5, 4.0));
    assert Update(l5, Play).next == Latched;
    var e := Recording;
    assert Run(Latched, e[6..]) == Ok(Trace(Latched, []));
    assert Run(l5, e[5..]) == Ok(Trace(Latched, []));
    assert [4.0] + [] == [4.0];
    assert Run(l4, e[4..]) == Ok(Trace(Latched, [4.0]));
    assert [3.0] + [4.0] == [3.0, 4.0];
    assert Run(l3, e[3..]) == Ok(Trace(Latched, [3.0, 4.0]));
    assert [2.0] + [3.0, 4.0] == [2.0, 3.0, 4.0];
    assert Run(l2, e[2..]) == Ok(Trace(Latched, [2.0, 3.0, 4.0]));
    assert [1.0] + [2.0, 3.0, 4.0] == Loop;
    assert Run(l1, e[1..]) == Ok(Trace(Latched, Loop));
  }

  /** Silent frames on the latched loop play back 1, 2, 3, 4, write nothing
      and bring the cursor round to the start again. */
  lemma PlaybackPass()
    ensures Run(Latched, Silence) == Ok(Trace(Latched, Loop))
  {
    var p1 := Latched.(index := 1);
    var p2 := Latched.(index := 2);
    var p3 := Latched.(index := 3);
    assert Process(Latched, 0.0) == Ok(Step(p1, 1.0));
    assert Process(p1, 0.0) == Ok(Step(p2, 2.0));
    assert Process(p2, 0.0) == Ok(Step(p3, 3.0));
    assert Process(p3, 0.0) == Ok(Step(Latched, 4.0));
    var e := Silence;
    assert Run(Latched, e[4..]) == Ok(Trace(Latched, []));
    assert [4.0] + [] == [4.0];
    assert Run(p3, e[3..]) == Ok(Trace(Latched, [4.0]));
    assert [3.0] + [4.0] == [3.0, 4.0];
    assert Run(p2, e[2..]) == Ok(Trace(Latched, [3.0, 4.0]));
    assert [2.0] + [3.0, 4.0] == [2.0, 3.0, 4.0];
    assert Run(p1, e[1..]) == Ok(Trace(Latched, [2.0, 3.0, 4.0]));
    assert [1.0] + [2.0, 3.0, 4.0] == Loop;
  }

  /** Record, then play the loop once. */
  lemma RecordThenPlay()
    ensures Run(New(Zeros, Some(Zeros)), Recording + Silence)
      == Ok(Trace(Latched, Loop + Loop))
  {
    RecordingPass();
    PlaybackPass();
    Runs.RunAppend(New(Zeros, Some(Zeros)), Recording, Silence);
  }

  /** Overdubbing 1.0 at the start of the loop adds it to the primary's cell
      and outputs the input plus the new cell; the shadow keeps the old value.
      Undo then swaps the roles back, so the primary is the loop as it was
      before the overdub and plays back exactly that. */
  lemma OverdubAndUndo()
    ensures Run(Latched, OverdubThenUndo)
      == Ok(Trace(Looper(Loop, Some([2.0, 2.0, 3.0, 4.0]), Undo, 1, 4, true), [3.0]))
    ensures Run(Latched, OverdubThenUndo + [Tick(0.0), Tick(0.0), Tick(0.0), Tick(0.0)])
      == Ok(Trace(Looper(Loop, Some([2.0, 2.0, 3.0, 4.0]), Undo, 1, 4, true), [3.0, 2.0, 3.0, 4.0, 1.0]))
  {
    var dubbed := [2.0, 2.0, 3.0, 4.0];
    var o1 := Looper(Loop, Some(Loop), Record, 0, 4, true);
    var o2 := Looper(dubbed, Some(Loop), Record, 1, 4, true);
    var o3 := Looper(dubbed, Some(Loop), Play, 1, 4, true);
    var o4 := Looper(Loop, Some(dubbed), Undo, 1, 4, true);
    assert Update(Latched, Record).next == o1;
    assert Loop[0 := Loop[0] + 1.0] == dubbed;
    assert Process(o1, 1.0) == Ok(Step(o2, 3.0));
    assert Update(o2, Play).next == o3;
    assert Update(o3, Undo).next == o4;
    var e := OverdubThenUndo;
    assert Run(o4, e[4..]) == Ok(Trace(o4, []));
    assert Run(o3, e[3..]) == Ok(Trace(o4, []));
    assert Run(o2, e[2..]) == Ok(Trace(o4, []));
    assert [3.0] + [] == [3.0];
    assert Run(o1, e[1..]) == Ok(Trace(o4, [3.0]));

    var u1 := o4.(index := 2);
    var u2 := o4.(index := 3);
    var u3 := o4.(index := 0);
    assert Process(o4, 0.0) == Ok(Step(u1, 2.0));
    assert Process(u1, 0.0) == Ok(Step(u2, 3.0));
    assert Process(u2, 0.0) == Ok(Step(u3, 4.0));
    assert Process(u3, 0.0) == Ok(Step(o4, 1.0));
    var s := [Tick(0.0), Tick(0.0), Tick(0.0), Tick(0.0)];
    assert Run(o4, s[4..]) == Ok(Trace(o4, []));
    assert [1.0] + [] == [1.0];
    assert Run(u3, s[3..]) == Ok(Trace(o4, [1.0]));
    assert [4.0] + [1.0] == [4.0, 1.0];
    assert Run(u2, s[2..]) == Ok(Trace(o4, [4.0, 1.0]));
    assert [3.0] + [4.0, 1.0] == [3.0, 4.0, 1.0];
    assert Run(u1, s[1..]) == Ok(Trace(o4, [3.0, 4.0, 1.0]));
    assert [2.0] + [3.0, 4.0, 1.0] == [2.0, 3.0, 4.0, 1.0];
    assert Run(o4, s) == Ok(Trace(o4, [2.0, 3.0, 4.0, 1.0]));
    assert [3.0] + [2.0, 3.0, 4.0, 1.0] == [3.0, 2.0, 3.0, 4.0, 1.0];
    Runs.RunAppend(Latched, e, s);
  }

  /** Entering Record from Play swaps the roles, so a second overdub pass
      starts from the snapshot taken before the first one: on the loop 1, 2,
      an overdub of 5.0 at cell 0 outputs 5 + 6, and after Play and Record
      again the primary is back to 1, 2 while the first layer sits in the
      shadow. */
  lemma SecondPassStartsFromSnapshot()
    ensures Run(Looper([1.0, 2.0], Some([1.0, 2.0]), Play, 0, 2, true),
                [Request(Record), Tick(5.0), Request(Play), Request(Record)])
      == Ok(Trace(Looper([1.0, 2.0], Some([6.0, 2.0]), Record, 1, 2, true), [11.0]))
  {
    var start := Looper([1.0, 2.0], Some([1.0, 2.0]), Play, 0, 2, true);
    var q1 := Looper([1.0, 2.0], Some([1.0, 2.0]), Record, 0, 2, true);
    var q2 := Looper([6.0, 2.0], Some([1.0, 2.0]), Record, 1, 2, true);
    var q3 := Looper([6.0, 2.0], Some([1.0, 2.0]), Play, 1, 2, true);
    var q4 := Looper([1.0, 2.0], Some([6.0, 2.0]), Record, 1, 2, true);
    assert Update(start, Record).next == q1;
    assert [1.0, 2.0][0 := 1.0 + 5.0] == [6.0, 2.0];
    assert Process(q1, 5.0) == Ok(Step(q2, 11.0));
    assert Update(q2, Play).next == q3;
    assert Update(q3, Record).next == q4;
    var e := [Request(Record), Tick(5.0), Request(Play), Request(Record)];
    assert Run(q4, e[4..]) == Ok(Trace(q4, []));
    assert Run(q3, e[3..]) == Ok(Trace(q4, []));
    assert Run(q2, e[2..]) == Ok(Trace(q4, []));
    assert [11.0] + [] == [11.0];
    assert Run(q1, e[1..]) == Ok(Trace(q4, [11.0]));
  }
}
