# Looper engine model

A Dafny model of the looping engine of a single-track audio looper pedal
(`Looper<N>` in `src/lib.rs`) and of the one-button control policy of its
firmware (`interface_handler` in `src/main.rs`).

The engine owns a primary buffer `buf1` and an optional shadow buffer `buf2`
of the same length `N`. It has a five-state controller (Record, Play, Undo,
Stop, Clear), a cursor `index`, a loop length `tail` and a latch flag
`isLooping`. The model is functional:

- `Engine.Process(l, input)` is one audio frame. It returns the next engine
  and the output sample, or the panic the device would hit.
- `Engine.Update(l, requested)` is one state request. It returns the next
  engine together with `Ok(())` or `Err(InvalidStateTransition)`. A refused
  request returns the engine unchanged, as `update` does on `&mut self`.
- `Engine.SwapBuf` exchanges the primary and shadow roles without copying.
- `Engine.Run` feeds a sequence of frames and requests to the engine.
- `OneButton.Decide` and `OneButton.InterfaceHandler` model the firmware's
  choice of request for a held, double-pressed or released switch, and the
  `unwrap()` of the result.

Samples are modelled as `real`; the engine only copies and adds them.

`Engine.Valid` is the invariant of every engine built from a non-empty buffer:
- the shadow buffer has the primary's length;
- `tail <= N` and `index < N`;
- `tail == N` until the loop is latched;
- Play and Undo are only reached once the loop is latched.

Under this invariant every buffer access in `process` is in bounds. The only
panic left is the cursor update `(index + 1) % tail` when `tail == 0`.

That zero loop length is reachable. The first Record→Play transition sets
`tail := index - 1`, which is 0 when `index == 1`. From a freshly built engine
the steps are: Record, one frame, Play, then one frame that panics.
`Runs.RemainderByZeroReachable` proves this for every buffer of two or more
samples. `OneButton.TapsReachRemainderByZero` shows that `Decide` alone does
not rule it out: under the policy, a release, one frame and a second release
reach it. Whether the device's timing allows that sequence is not modelled
(see "Left out"). The policy's own `unwrap()` calls never fail
(`OneButton.InterfaceHandler`). From a valid engine no run ever indexes a
buffer out of bounds (`Runs.RunNeverOutOfBounds`). Once a non-zero loop is
latched, no run panics until the next Clear (`Runs.LatchedLoopNeverPanics`).

Some bounds one might expect of a looper do not hold in the code:
- `index < tail` fails right after a first latch at cursor `k > 0`. `tail`
  becomes `k - 1` (src/lib.rs:115-116), so at that point `index == tail + 1`.
  The next frame reads `buf1[k]`, which is still below `N`, and the cursor
  then moves to `(k + 1) % (k - 1)`. When `k` is 1 the loop length is 0 and
  that remainder panics; when `k` is 2 or 3 the cursor wraps to 0
  (`Runs.EarlyLatchWrapsOrPanics`); when `k >= 4` it moves to 2, so the first
  playback pass skips cells 0 and 1 (`Runs.LateLatchSkipsLoopStart`). The
  model keeps only `index < N`.
- `tail` can be 0, as shown above.
- A first pass of `k` frames recorded from cursor 0, with `1 < k < N`, keeps
  one sample fewer than it recorded: the loop length is `k - 1`, and the
  first frame of playback mixes in cell `k`, which that pass never wrote
  (`Runs.LatchDropsLastRecordedSample` for `k = 2`). When the pass fills the
  whole buffer the cursor wraps to 0 and the length stays `N`
  (`Scenarios.RecordingPass`); a longer pass latches at the cursor where it
  stops. A pass of one frame latches a zero length, and its first playback
  frame reads cell 1 and then panics (see above).
- Entering Record from Play swaps the buffer roles (src/lib.rs:97-98). A
  second overdub pass therefore starts from the snapshot taken before the
  first one, and the first layer moves to the shadow
  (`Scenarios.SecondPassStartsFromSnapshot`).
- In overdub, the read-back happens after the write, so the output is
  `input + (old + input)` and not `input + old`.

## Model

| member | source | states |
|---|---|---|
| Engine.New | src/lib.rs:31-46 | A new engine holds the given buffers in the cleared configuration: state Clear, cursor 0, loop length N, not latched. It is valid whenever N >= 1. |
| Engine.SwapBuf | src/lib.rs:147-152 | The primary and shadow roles are exchanged and no control field changes. With no shadow buffer the engine is unchanged. Validity is kept. |
| Engine.SwapBufTwice | src/lib.rs:147-152 | Two swaps restore the original roles. |
| Engine.Process | src/lib.rs:54-84 | Stop and Clear pass the input through and change nothing. On a valid engine, process fails only in Record, Play or Undo with a zero loop length, and the failure is the remainder by zero, never an out-of-bounds index. Success keeps validity and N. Record, Play and Undo advance the cursor by one modulo tail and keep state, tail and latch. Unlatched Record overwrites the cursor cell in both buffers, keeps every other cell, and outputs the input. Latched Record adds the input to the primary cell, leaves the shadow alone, and outputs input + (old + input). Play and Undo write nothing and output input + buf1[index] when latched, otherwise the input. |
| Engine.Update | src/lib.rs:87-143 | A request succeeds exactly when the transition table allows it: Record from any state but Record, Play only from Record, and Undo, Stop and Clear always. A refused request returns InvalidStateTransition and the unchanged engine. The contract gives the resulting state for every request, including Undo, which changes the state only when leaving Play. It says which requests swap roles: Undo always, Record unless coming from Undo; without a shadow buffer no request moves a buffer. The cursor changes only on Clear. Clear resets cursor, loop length and latch. Record to Play latches tail to index - 1, or keeps tail when index is 0 or the loop is already latched. A latched loop keeps its length until Clear. The new tail is 0 exactly when a first latch happens at cursor 1, or when it was already 0 and no Clear came. Validity is kept. |
| Engine.Run | src/lib.rs:54-143 | A completed run outputs exactly one sample per audio frame. Over any sequence of frames and requests from a valid engine, the engine stays valid with the same N, so tail <= N and index < N throughout. |
| Runs.LatchedLoopStable | src/lib.rs:106-141 | Once the loop is latched, no run without Clear unlatches it or changes its length. |
| Runs.LatchedLoopNeverPanics | src/lib.rs:74-123 | A valid engine with a latched, non-zero loop processes every frame of any run without Clear, with no panic. |
| Runs.RemainderByZeroReachable | src/lib.rs:81-117 | From a new engine with N >= 2: Record, one frame, Play, one frame. The last frame panics because the latched loop length is 0. |
| Runs.RunNeverOutOfBounds | src/lib.rs:54-84 | From a valid engine, a run that panics panics only on the remainder by a zero loop length, never on a buffer index. |
| Runs.EarlyLatchWrapsOrPanics | src/lib.rs:74-117 | A first latch at cursor k in 1..3 sets the loop length to k - 1 and keeps the cursor at k. At k = 1 the next frame panics on the remainder by zero. At k = 2 or 3 it outputs the input plus cell k and the cursor wraps to 0. |
| Runs.LateLatchSkipsLoopStart | src/lib.rs:74-117 | A first latch at cursor k >= 4 sets the loop length to k - 1 and keeps the cursor at k; the next frame outputs the input plus cell k, and the cursor moves to 2. |
| Runs.LatchDropsLastRecordedSample | src/lib.rs:59-117 | From a new engine with N >= 3: Record, frames x and y, Play, frame z. The outputs are x, y and z plus cell 2, which recording never wrote; the loop length is 1 and the cursor wraps to 0. |
| Scenarios.RecordingPass | src/lib.rs:54-123 | With N = 4 and zeroed buffers, recording 1, 2, 3, 4 outputs the inputs and fills both buffers. The cursor wraps to 0, so Play latches the full length 4. |
| Scenarios.PlaybackPass | src/lib.rs:74-82 | Four silent frames on that latched loop output 1, 2, 3, 4. They leave the buffers unchanged and bring the cursor back to 0. |
| Scenarios.RecordThenPlay | src/lib.rs:54-123 | The two passes above compose into one run whose output is the loop twice. |
| Scenarios.OverdubAndUndo | src/lib.rs:54-152 | Overdubbing 1.0 at cell 0 makes the primary hold 2.0 there and outputs 3.0, while the shadow keeps 1.0. Play then Undo swaps the roles back, and playback reproduces the pre-overdub loop 2, 3, 4, 1 from cursor 1. |
| Scenarios.SecondPassStartsFromSnapshot | src/lib.rs:89-123 | On the latched loop 1, 2 with both buffers equal: Record, an overdub of 5.0 at cell 0 (output 11.0), Play, Record. The primary is back to 1, 2 and the overdubbed 6, 2 is in the shadow. |
| OneButton.Decide | src/main.rs:118-160 | Hold: Stop asks for Clear, Play for Undo, other states nothing. Otherwise a double press asks for Stop. Otherwise a release asks for Play in Record and for Record elsewhere. No event asks for nothing. Every request issued is one the transition table accepts. |
| OneButton.InterfaceHandler | src/main.rs:118-161 | The unwrap of the issued request never panics. The engine is updated by exactly the decided request, or left alone when none is decided. Validity is kept. |
| OneButton.TapsReachRemainderByZero | src/main.rs:141-160 | Under `Decide`, the events release, one frame, release reach Play with loop length 0, and the next frame panics: the policy alone does not rule this out. |

## Left out

- `get_state` (src/lib.rs:48-50) is the datatype field `state`. It has no logic of its own.
- `buf1` is an `Option` in the source but is always `Some`. It is modelled as a plain sequence, so the `unwrap()` calls at src/lib.rs:57, 137 and 149 cannot fail.
- The buffer-length panic in `new` (src/lib.rs:32-36) cannot be reached, because both buffers have the const-generic type `[f32; N]`. It is the precondition of `Engine.New`.
- `f32` arithmetic: rounding, NaN and overflow are not modelled. Samples are reals under `+`.
- `usize` overflow of `index + 1` is not modelled. In a valid engine `index < N`, so it cannot occur.
- The RTIC application, interrupt bindings, resource locks and priorities (src/main.rs). Mutual exclusion of `process` and `update` is the scheduler's job. The model treats the two operations as atomic steps of one sequential state.
- SDRAM buffer carving, audio I/O (`get_stereo`/`push_stereo`), timer and switch set-up with its debounce thresholds, the LED brightness and blink calls, and logging. These are hardware drivers and presentation with no engine logic. The switch is an input of `OneButton.Decide`.
- `Engine.Run` does not record refused requests. A refusal leaves the engine unchanged (`Engine.Update`), so continuing the run is the same as applying it. The firmware's handler does not ignore refusals: it unwraps every result (src/main.rs:125-158), and it never issues a refused request (`OneButton.InterfaceHandler`).
- Timing of the button handler against audio frames is not modelled: the handler runs on a 1 ms timer (src/main.rs:42), each audio interrupt processes a whole block of frames (src/main.rs:90-94), and the switch has a 500 ms double-press window (src/main.rs:68). `OneButton.InterfaceHandler` and `Engine.Run` accept any interleaving of switch reports and frames, so `OneButton.TapsReachRemainderByZero` shows a trace of the model, not one shown possible on the device.
