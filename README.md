# Valentine heart: animation and interaction state machine

`valentine.py` animates the curve y = |x|^(2/3) + a·sin(kx)·√(3 − x²) in a
window. The part of it with behaviour worth proving is the state machine in
class `ValentineHeart`. It holds a handful of integer and boolean fields:
frame counter, pause flag, frames per second, completion latch, started flag,
splash tick, hover flag. A timer tick and three kinds of user events update
these fields in place:

- **Timer tick** (`_update`). The tick has three phases:
  - *Splash*: before start, only the button glow counter moves.
  - *Build*: k ramps from 0 to 50 with smoothstep easing while the curve fades in.
  - *Pulse*: k stays at 50, the amplitude "breathes", and the frame counter
    wraps within the pulse window. The completion message appears once, on the
    first pulse tick.
- **Key press** (`_on_key_press`). Start, pause toggle, restart, speed up/down
  clamped to [1, 30] fps, and quit. What each key does depends on whether the
  animation has started.
- **Mouse** (`_on_click`, `_on_motion`). A click on the start button starts the
  animation. Pointer motion tracks whether the pointer is over the button.

The project has four modules:

- `Easing` (`easing.dfy`): the clamp-then-smoothstep easing function over
  reals. It proves the range, the end points, monotonicity, point symmetry and
  the midpoint.
- `HeartModel` (`heart_model.dfy`): the animation fields as a record `State`
  and one pure function per event: `Next` (tick), `Render` (what a tick
  draws), `Key`, `Click` and `Motion`. Also the invariant `Inv` that every
  reachable state keeps, and the properties of a single event.
- `HeartRuns` (`heart_runs.dfy`): properties of runs, meaning many ticks in a
  row or the same key pressed many times. They cover the frame bounds, pause
  freezing, the completion signal firing exactly once per build cycle,
  restart followed by a full build, and fps saturation.
- `Valentine` (`valentine_heart.dfy`): class `ValentineHeart` with the source's
  fields. Its callbacks change those fields step by step, as the source does.
  Each callback is proved to leave exactly the state that the matching
  `HeartModel` function describes, and to keep the invariant.

After start only Space toggles pause (valentine.py:610). Enter matches no
branch of the post-start handler and is ignored (`HeartModel.Key`'s last
ensures), as the controls listed in the module docstring and the console
banner also indicate.

The timer's period is kept as the field `interval`. Before start it is
1000 // 15 = 66 ms, the splash rate set up in `run`. After start it is
1000 // fps. The source's guard `hasattr(self, '_anim')` is taken as true:
events only arrive once `run` has created the timer.

## Model

| member | source | states |
|---|---|---|
| `Easing.Clip` | valentine.py:145 | the clipped value lies in [0, 1], is the input inside that interval, and is 0 below it and 1 above it |
| `Easing.Ease` | valentine.py:145-146 | eased progress lies in [0, 1], is 0 for every t <= 0 and 1 for every t >= 1 |
| `Easing.EaseMonotone` | valentine.py:145-146 | ease is monotone non-decreasing over all reals |
| `Easing.EaseSymmetric` | valentine.py:145-146 | ease(t) = 1 - ease(1 - t) for every real t |
| `Easing.EaseHalf` | valentine.py:145-146 | ease(0.5) = 0.5 |
| `HeartModel.InitialInv` | valentine.py:94-100 | the initial state `HeartModel.Initial` (frame 0, not paused, 3 fps, latch off, not started, splash tick 0, not hovering) satisfies the invariant and is on the splash screen |
| `HeartModel.IntervalMs` | valentine.py:642-652 | for fps in [1, 30] the timer period 1000 // fps lies in [33, 1000] and is the floor of 1000 / fps |
| `HeartModel.AdvanceFrame` | valentine.py:552-556 | increment-then-wrap keeps a frame below BUILD_FRAMES + PULSE_FRAMES in range, never takes a pulse frame below BUILD_FRAMES, and sends the end of the pulse window back to exactly BUILD_FRAMES |
| `HeartModel.Progress` | valentine.py:507 | build progress t = frame / 99 is non-negative, at most 1 on build frames, 0 at frame 0 and exactly 1 at the last build frame |
| `HeartModel.Next` | valentine.py:487-556 | a tick keeps the invariant. Before start it only increments the splash tick. While paused it changes nothing. When running it advances the frame with wrap, moves only the frame, latch and message, leaves the latch off on build frames and sets it on pulse frames |
| `HeartModel.Render` | valentine.py:487-549 | splash ticks only drive the glow and paused ticks draw nothing. A running tick draws k in [0, 50] and an alpha factor in [0.4, 1]. On build frames k = 50 · ease(t) and the alpha factor is 0.4 + 0.6 · t for t = frame / 99, so k is 0 and alpha 0.4 at frame 0 and k is 50 at frame 99. Pulse frames draw k = 50 with alpha 1 and breathing index frame - 100. The completion signal is emitted exactly when a pulse frame is drawn with the latch off |
| `HeartModel.BuildRampsUp` | valentine.py:504-514 | during the build, neither k nor the alpha factor decreases as the frame index grows (the curve ramps up and fades in) |
| `HeartModel.Start` | valentine.py:448-458 | starting sets the started flag and the timer period to 1000 // fps and changes nothing else |
| `HeartModel.Key` | valentine.py:597-652 | a key press keeps the invariant and fps in [1, 30] and never returns to the splash screen. Quit keys close the window and change nothing else. Before start: Space/Enter start and every other key (r, up and down included) changes nothing. After start: Space toggles pause and sets the matching message, r resets frame, latch, pause and message and keeps started and fps, up gives min(30, fps + 1), down gives max(1, fps - 1), each with the matching timer period. Enter and all other keys are ignored |
| `HeartModel.OverButton` | valentine.py:437-446 | over exact reals, a point is over the button exactly when the event has a position inside [0.37, 0.63] x [0.415, 0.505], edges included; an event without a position never is |
| `HeartModel.Click` | valentine.py:565-572 | a click keeps the invariant. It starts the animation exactly when the animation had not started and the click is over the button, and it is a no-op otherwise |
| `HeartModel.Motion` | valentine.py:574-595 | motion keeps the invariant and changes nothing but the hover flag. Before start the flag follows whether the pointer is over the button. After start motion is ignored |
| `HeartModel.MessageFor` | valentine.py:613-622 | the status line shows the pause notice exactly when paused, the completion text exactly when not paused and the latch is set, and is blank exactly when neither holds |
| `HeartModel.PauseTwiceRestores` | valentine.py:610-622 | after start, pressing Space twice restores the whole state, the message included |
| `HeartRuns.TicksKeepInv` | valentine.py:502-556 | any run of ticks keeps the invariant, so the frame index stays in [0, BUILD_FRAMES + PULSE_FRAMES) |
| `HeartRuns.SplashTicksOnlyCount` | valentine.py:487-495 | before start, n ticks only add n to the splash tick |
| `HeartRuns.PausedTicksFreeze` | valentine.py:497-500 | while started and paused, any number of ticks changes nothing |
| `HeartRuns.BuildTicksAdvance` | valentine.py:504-517 | during an unfinished build, n ticks that stay within the build advance the frame by exactly n and change nothing else, and the latch stays off |
| `HeartRuns.PulseTicksStay` | valentine.py:519-556 | from a pulse frame, every run keeps the frame in [BUILD_FRAMES, BUILD_FRAMES + PULSE_FRAMES) and stays started. After one running tick the latch is on |
| `HeartRuns.CompletionSignalOnce` | valentine.py:517-535 | over any run of n ticks from a started state, the completion signal fires exactly once if the state is running, the latch is off and n exceeds 100 - frame. Otherwise it never fires |
| `HeartRuns.RestartRebuilds` | valentine.py:625-629 | after a restart, frame 99 draws k = 50 with alpha 1. After 100 ticks the frame is 100 with the latch still off, and over n ticks the completion signal fires once exactly when n > 100 |
| `HeartRuns.SpeedUpSaturates` | valentine.py:642-646 | n presses of up from a started state give fps = min(30, fps + n) and keep the invariant |
| `HeartRuns.SpeedDownSaturates` | valentine.py:648-652 | n presses of down from a started state give fps = max(1, fps - n) and keep the invariant |
| `HeartRuns.SplashIgnoresKeys` | valentine.py:603-608 | before start, any number of presses of a key other than Space, Enter, q and Escape leaves the state unchanged |
| `Valentine.ValentineHeart.constructor` | valentine.py:94-100 | a new object holds the initial state and is valid |
| `Valentine.ValentineHeart.StartAnimation` | valentine.py:448-458 | moves the fields exactly as `HeartModel.Start` |
| `Valentine.ValentineHeart.Update` | valentine.py:475-559 | keeps the invariant, returns `HeartModel.Render` of the old state and leaves `HeartModel.Next` of it |
| `Valentine.ValentineHeart.OnClick` | valentine.py:565-572 | keeps the invariant and leaves `HeartModel.Click` of the old state |
| `Valentine.ValentineHeart.OnMotion` | valentine.py:574-595 | keeps the invariant and leaves `HeartModel.Motion` of the old state |
| `Valentine.ValentineHeart.OnKeyPress` | valentine.py:597-652 | keeps the invariant and leaves `HeartModel.Key` of the old state |

## Left out

- `_heart_curve` (valentine.py:112-132): floating-point `** (2/3)`, `sin` and `sqrt` over numpy arrays. A drawn frame is described by the curve's parameters (k, amplitude, alpha factor) and not by the sample arrays.
- Render: the breathing amplitude 0.9 + 0.035·sin(2π·i/20) is given as the index i fed to the sine (`Breathing(i)`). The splash glow alpha 0.08 + 0.14·sin(2π·tick/30) is given as the tick (`Glow(tick)`). Sine is not modelled.
- HeartModel.OverButton: the rectangle's bounds are exact reals. In the source they are computed in doubles, where `0.46 - 0.045` evaluates to 0.41500000000000004, so a pointer at exactly fy = 0.415 is over the button in the model but not in the source. The other three bounds evaluate to exactly 0.37, 0.63 and 0.505.
- Floating point: build progress, k and the alpha factor are exact reals, so rounding in `frame / 99` and in the polynomial is not modelled.
- Figure, artist and text construction and styling (`_create_figure`, `_create_plot_elements`, `_create_start_screen`, `_remove_start_screen`, the colour table). Also the k readout text, the message's alpha, the hover styling of the button, and clearing the curve layers on restart. The status message is kept only as which of its three texts is shown.
- The pixel-to-figure transform in `_is_over_button` (valentine.py:440-442) is a call into the plotting library. Click and motion take the already transformed figure point, or None when the event has no pixel position.
- `run`, `FuncAnimation`, `plt.show`, `plt.close` and redraw requests are event-loop I/O. Quit is the `closed` flag. The model does not stop further events after it, since the closed window delivers none.
- The console banner (valentine.py:684-705).
