/** The animation and interaction state machine of the Valentine heart, as
    pure functions over a record of the animation's fields. Each timer tick,
    key press, click and pointer motion is one function from the state before
    the event to the state after it. */
module HeartModel {
  import Easing

  // Animation parameters, fixed by the program.
  const K_FINAL: real := 50.0
  const BUILD_FRAMES: nat := 100
  const PULSE_FRAMES: nat := 60
  const INITIAL_FPS: nat := 3
  const SPLASH_FPS: nat := 15
  const MIN_FPS: nat := 1
  const MAX_FPS: nat := 30

  // Frame indices live in [0, CYCLE_END) once the animation runs.
  const CYCLE_END: nat := BUILD_FRAMES + PULSE_FRAMES

  // The keys the handler reacts to, as the windowing layer names them.
  const SPACE: string := " "
  const ENTER: string := "enter"
  const RESTART: string := "r"
  const QUIT: string := "q"
  const ESCAPE: string := "escape"
  const UP: string := "up"
  const DOWN: string := "down"

  datatype Option<T> = None | Some(value: T)

  /** A pointer position in figure-relative coordinates ([0, 1] across the window). */
  datatype Point = Point(x: real, y: real)

  /** What the status line above the heart shows. */
  datatype Message =
    | Blank         // hidden
    | Completion    // the "made with love" line shown after the build
    | PausedNotice  // the pause hint

  /** The fields the animation object updates in place. */
  datatype State = State(
    frame: nat,          // build/pulse frame counter
    paused: bool,
    fps: nat,            // frames per second of the heart animation
    completed: bool,     // latch: the build phase has finished once
    started: bool,       // the splash screen has been dismissed
    splashTick: nat,     // drives the start button's glow on the splash screen
    hovering: bool,      // the pointer is over the start button
    interval: nat,       // the timer's period in milliseconds
    message: Message,
    closed: bool)        // the window was closed by a quit key

  /** How the amplitude of the curve's wave term is chosen. The pulse
      amplitude is 0.9 + 0.035 * sin(2 pi i / 20); the sine stays abstract
      and the index i fed to it is kept. */
  datatype Amplitude = Steady | Breathing(pulseIdx: nat)

  /** What one timer tick draws. */
  datatype Output =
    | Glow(glowTick: nat)   // splash: only the button glow changes, driven by this tick count
    | Frozen                // paused: nothing is redrawn
    | Drawn(k: real, amplitude: Amplitude, alphaFactor: real, showsCompletion: bool)
      // a curve frame; showsCompletion is the one-time completion signal

  /** The timer period for a given rate: 1000 // fps milliseconds. */
  function IntervalMs(fps: nat): (ms: nat)
    requires 1 <= fps <= MAX_FPS
    ensures 33 <= ms <= 1000
    ensures ms * fps <= 1000 < (ms + 1) * fps
  {
    1000 / fps
  }

  /** The status line that belongs to a running animation's pause and latch flags. */
  function MessageFor(paused: bool, completed: bool): (m: Message)
    ensures m == PausedNotice <==> paused
    ensures m == Completion <==> !paused && completed
    ensures m == Blank <==> !paused && !completed
  {
    if paused then PausedNotice else if completed then Completion else Blank
  }

  /** The state right after construction: splash screen, nothing built. */
  function Initial(): State
  {
    State(frame := 0, paused := false, fps := INITIAL_FPS, completed := false,
          started := false, splashTick := 0, hovering := false,
          interval := 1000 / SPLASH_FPS, message := Blank, closed := false)
  }

  /** The invariant every reachable state satisfies. */
  ghost predicate Inv(s: State)
  {
    && MIN_FPS <= s.fps <= MAX_FPS
    && s.frame < CYCLE_END
    // the completion latch is off during the build and on after the first pulse tick
    && (s.frame < BUILD_FRAMES ==> !s.completed)
    && (s.frame > BUILD_FRAMES ==> s.completed)
    && (!s.started ==>
          s.frame == 0 && !s.paused && s.message == Blank && s.interval == 1000 / SPLASH_FPS)
    && (s.started ==> s.interval == 1000 / s.fps && s.message == MessageFor(s.paused, s.completed))
  }

  lemma InitialInv()
    ensures Inv(Initial())
    ensures !Initial().started && Initial().frame == 0 && !Initial().completed
  {
  }

  // ---------------------------------------------------------------------
  //  Timer tick
  // ---------------------------------------------------------------------

  /** The frame counter after a drawn frame: increment, then wrap from the
      end of the pulse window back to its start. */
  function AdvanceFrame(frame: nat): (f: nat)
    ensures frame < CYCLE_END ==> f < CYCLE_END
    ensures frame >= BUILD_FRAMES ==> f >= BUILD_FRAMES
    ensures frame + 1 == CYCLE_END ==> f == BUILD_FRAMES
    ensures frame + 1 < CYCLE_END ==> f == frame + 1
  {
    if frame + 1 >= CYCLE_END then BUILD_FRAMES else frame + 1
  }

  /** Build progress t of a build frame: frame / max(1, BUILD_FRAMES - 1). */
  function Progress(frame: nat): (t: real)
    ensures 0.0 <= t
    ensures frame < BUILD_FRAMES ==> t <= 1.0
    ensures frame == 0 ==> t == 0.0
    ensures frame == BUILD_FRAMES - 1 ==> t == 1.0
  {
    (frame as real) / (Max(1, BUILD_FRAMES - 1) as real)
  }

  function Max(a: int, b: int): int
  {
    if a < b then b else a
  }

  /** The state after one timer tick. */
  function Next(s: State): (r: State)
    ensures Inv(s) ==> Inv(r)
    // splash: only the glow counter moves
    ensures !s.started ==> r == s.(splashTick := s.splashTick + 1)
    // paused: nothing changes at all
    ensures s.started && s.paused ==> r == s
    // running: only the frame counter, the latch and the message move
    ensures s.started && !s.paused ==>
      r.frame == AdvanceFrame(s.frame)
      && r == s.(frame := r.frame, completed := r.completed, message := r.message)
    ensures s.started && !s.paused && s.frame >= BUILD_FRAMES ==> r.completed
    ensures s.started && !s.paused && s.frame < BUILD_FRAMES ==> !r.completed
  {
    if !s.started then
      s.(splashTick := s.splashTick + 1)
    else if s.paused then
      s
    else if s.frame < BUILD_FRAMES then
      s.(completed := false, frame := AdvanceFrame(s.frame))
    else if !s.completed then
      s.(completed := true, message := Completion, frame := AdvanceFrame(s.frame))
    else
      s.(frame := AdvanceFrame(s.frame))
  }

  /** What one timer tick draws, computed from the state before the tick. */
  function Render(s: State): (o: Output)
    ensures !s.started ==> o == Glow(s.splashTick + 1)
    ensures s.started && s.paused ==> o == Frozen
    ensures s.started && !s.paused ==> o.Drawn?
    ensures o.Drawn? ==> 0.0 <= o.k <= K_FINAL && 0.4 <= o.alphaFactor <= 1.0
    // the completion signal fires exactly on the first pulse tick
    ensures o.Drawn? ==> (o.showsCompletion <==> s.frame >= BUILD_FRAMES && !s.completed)
    // the last build frame already shows the finished heart
    ensures o.Drawn? && s.frame == BUILD_FRAMES - 1 ==> o.k == K_FINAL
    ensures o.Drawn? && s.frame == 0 ==> o.k == 0.0 && o.alphaFactor == 0.4
    // build frames: k follows the eased progress and the curve fades in linearly
    ensures o.Drawn? && s.frame < BUILD_FRAMES ==>
      o.k == K_FINAL * Easing.Ease(Progress(s.frame)) && o.alphaFactor == 0.4 + 0.6 * Progress(s.frame)
    ensures o.Drawn? && s.frame < BUILD_FRAMES ==> o.amplitude == Steady
    ensures o.Drawn? && s.frame >= BUILD_FRAMES ==>
      o.k == K_FINAL && o.alphaFactor == 1.0 && o.amplitude == Breathing(s.frame - BUILD_FRAMES)
  {
    if !s.started then
      Glow(s.splashTick + 1)
    else if s.paused then
      Frozen
    else if s.frame < BUILD_FRAMES then
      var t := Progress(s.frame);
      Drawn(K_FINAL * Easing.Ease(t), Steady, 0.4 + 0.6 * t, false)
    else
      Drawn(K_FINAL, Breathing(s.frame - BUILD_FRAMES), 1.0, !s.completed)
  }

  /** k and the curve's opacity both grow with the frame index throughout the build. */
  lemma BuildRampsUp(s: State, s': State)
    requires s.started && !s.paused && s'.started && !s'.paused
    requires s.frame <= s'.frame < BUILD_FRAMES
    ensures Render(s).k <= Render(s').k
    ensures Render(s).alphaFactor <= Render(s').alphaFactor
  {
    assert Progress(s.frame) <= Progress(s'.frame);
    Easing.EaseMonotone(Progress(s.frame), Progress(s'.frame));
  }

  // ---------------------------------------------------------------------
  //  Start, keys, mouse
  // ---------------------------------------------------------------------

  /** Dismissing the splash screen: the timer switches to the animation rate. */
  function Start(s: State): (r: State)
    requires MIN_FPS <= s.fps <= MAX_FPS
    ensures r.started && r.interval == IntervalMs(s.fps)
    ensures r == s.(started := true, interval := r.interval)
  {
    s.(started := true, interval := IntervalMs(s.fps))
  }

  /** The state after a key press. */
  function Key(s: State, key: string): (r: State)
    requires MIN_FPS <= s.fps <= MAX_FPS
    ensures Inv(s) ==> Inv(r)
    ensures MIN_FPS <= r.fps <= MAX_FPS
    // there is no way back to the splash screen
    ensures s.started ==> r.started
    // quitting closes the window and changes nothing else
    ensures (key == QUIT || key == ESCAPE) ==> r == s.(closed := true)
    // before start: Space or Enter starts, and every other key but quit is ignored
    ensures !s.started && (key == SPACE || key == ENTER) ==> r == Start(s)
    ensures !s.started && key != SPACE && key != ENTER && key != QUIT && key != ESCAPE ==> r == s
    // after start: Space toggles pause and leaves the animation where it is
    ensures s.started && key == SPACE ==>
      r.paused == !s.paused && r.message == MessageFor(r.paused, s.completed)
      && r == s.(paused := r.paused, message := r.message)
    // after start: restart rewinds the build but keeps the speed
    ensures s.started && key == RESTART ==>
      r.frame == 0 && !r.completed && !r.paused && r.message == Blank
      && r == s.(frame := 0, completed := false, paused := false, message := Blank)
    // after start: the speed keys step the rate within [MIN_FPS, MAX_FPS]
    ensures s.started && key == UP ==>
      r.fps == (if s.fps < MAX_FPS then s.fps + 1 else MAX_FPS)
      && r == s.(fps := r.fps, interval := IntervalMs(r.fps))
    ensures s.started && key == DOWN ==>
      r.fps == (if s.fps > MIN_FPS then s.fps - 1 else MIN_FPS)
      && r == s.(fps := r.fps, interval := IntervalMs(r.fps))
    // after start: Enter and every unbound key are ignored
    ensures s.started && key !in {SPACE, RESTART, QUIT, ESCAPE, UP, DOWN} ==> r == s
  {
    if !s.started then
      if key == SPACE || key == ENTER then Start(s)
      else if key == QUIT || key == ESCAPE then s.(closed := true)
      else s
    else if key == SPACE then
      var paused := !s.paused;
      s.(paused := paused, message := MessageFor(paused, s.completed))
    else if key == RESTART then
      s.(frame := 0, completed := false, paused := false, message := Blank)
    else if key == QUIT || key == ESCAPE then
      s.(closed := true)
    else if key == UP then
      var fps := if MAX_FPS < s.fps + 1 then MAX_FPS else s.fps + 1;
      s.(fps := fps, interval := IntervalMs(fps))
    else if key == DOWN then
      var fps := if s.fps - 1 < MIN_FPS then MIN_FPS else s.fps - 1;
      s.(fps := fps, interval := IntervalMs(fps))
    else
      s
  }

  /** The start button's rectangle: centred at (0.5, 0.46), half-width 0.13,
      half-height 0.045, edges included. An event without pixel coordinates
      is never over the button. */
  function OverButton(p: Option<Point>): (over: bool)
    ensures over ==> p.Some?
    ensures over ==> 0.37 <= p.value.x <= 0.63 && 0.415 <= p.value.y <= 0.505
    ensures p.Some? && 0.37 <= p.value.x <= 0.63 && 0.415 <= p.value.y <= 0.505 ==> over
  {
    match p
    case None => false
    case Some(q) => 0.5 - 0.13 <= q.x <= 0.5 + 0.13 && 0.46 - 0.045 <= q.y <= 0.46 + 0.045
  }

  /** The state after a mouse click at p. */
  function Click(s: State, p: Option<Point>): (r: State)
    requires MIN_FPS <= s.fps <= MAX_FPS
    ensures Inv(s) ==> Inv(r)
    ensures r.started <==> s.started || OverButton(p)
    ensures !s.started && OverButton(p) ==> r == Start(s)
    ensures s.started || !OverButton(p) ==> r == s
  {
    if !s.started && OverButton(p) then Start(s) else s
  }

  /** The state after the pointer moves to p: on the splash screen the hover
      flag follows the pointer; afterwards motion is ignored. */
  function Motion(s: State, p: Option<Point>): (r: State)
    ensures Inv(s) ==> Inv(r)
    ensures s.started ==> r == s
    ensures !s.started ==> r.hovering == OverButton(p)
    ensures r == s.(hovering := r.hovering)
  {
    if s.started then s
    else
      var over := OverButton(p);
      if over && !s.hovering then s.(hovering := true)
      else if !over && s.hovering then s.(hovering := false)
      else s
  }

  /** Space twice after start restores the state exactly. */
  lemma PauseTwiceRestores(s: State)
    requires Inv(s) && s.started
    ensures Key(Key(s, SPACE), SPACE) == s
  {
  }
}
