/** Properties of runs: many timer ticks in a row, or the same key pressed
    several times. */
module HeartRuns {
  import opened HeartModel

  /** The state after n timer ticks. */
  function Ticks(s: State, n: nat): State
    decreases n
  {
    if n == 0 then s else Ticks(Next(s), n - 1)
  }

  /** How many of the next n ticks emit the completion signal. */
  function CompletionSignals(s: State, n: nat): nat
    decreases n
  {
    if n == 0 then 0
    else
      var o := Render(s);
      (if o.Drawn? && o.showsCompletion then 1 else 0) + CompletionSignals(Next(s), n - 1)
  }

  /** The state after the same key is pressed n times. */
  function Presses(s: State, key: string, n: nat): State
    requires MIN_FPS <= s.fps <= MAX_FPS
    decreases n
  {
    if n == 0 then s else Presses(Key(s, key), key, n - 1)
  }

  /** Every run of ticks keeps the invariant, so the frame index never leaves [0, CYCLE_END). */
  lemma {:induction false} TicksKeepInv(s: State, n: nat)
    requires Inv(s)
    ensures Inv(Ticks(s, n))
    ensures Ticks(s, n).frame < CYCLE_END
    decreases n
  {
    if n > 0 {
      TicksKeepInv(Next(s), n - 1);
    }
  }

  /** On the splash screen ticks only count the glow up. */
  lemma {:induction false} SplashTicksOnlyCount(s: State, n: nat)
    requires !s.started
    ensures Ticks(s, n) == s.(splashTick := s.splashTick + n)
    decreases n
  {
    if n > 0 {
      SplashTicksOnlyCount(Next(s), n - 1);
    }
  }

  /** While paused, any number of ticks changes nothing. */
  lemma {:induction false} PausedTicksFreeze(s: State, n: nat)
    requires s.started && s.paused
    ensures Ticks(s, n) == s
    decreases n
  {
    if n > 0 {
      PausedTicksFreeze(Next(s), n - 1);
    }
  }

  /** During the build each tick advances the frame by exactly one and
      nothing else moves: the latch stays off until the first pulse tick. */
  lemma {:induction false} BuildTicksAdvance(s: State, n: nat)
    requires Inv(s) && s.started && !s.paused && !s.completed
    requires s.frame + n <= BUILD_FRAMES
    ensures Ticks(s, n) == s.(frame := s.frame + n)
    ensures !Ticks(s, n).completed
    decreases n
  {
    if n > 0 {
      BuildTicksAdvance(Next(s), n - 1);
    }
  }

  /** Once the frame index has reached the pulse window it stays there:
      it cycles within [BUILD_FRAMES, CYCLE_END) and the build never restarts
      by itself. After at least one running tick the latch is on. */
  lemma {:induction false} PulseTicksStay(s: State, n: nat)
    requires Inv(s) && s.started && s.frame >= BUILD_FRAMES
    ensures BUILD_FRAMES <= Ticks(s, n).frame < CYCLE_END
    ensures Ticks(s, n).started && Ticks(s, n).paused == s.paused
    ensures n > 0 && !s.paused ==> Ticks(s, n).completed
    decreases n
  {
    if n > 0 {
      PulseTicksStay(Next(s), n - 1);
    }
  }

  /** The completion signal fires exactly once per build cycle: from any
      running state it fires once if the latch is still off and the run is
      long enough to reach the first pulse tick, and never otherwise. */
  lemma {:induction false} CompletionSignalOnce(s: State, n: nat)
    requires Inv(s) && s.started
    ensures CompletionSignals(s, n) ==
      if !s.paused && !s.completed && n > BUILD_FRAMES - s.frame then 1 else 0
    decreases n
  {
    if n > 0 {
      CompletionSignalOnce(Next(s), n - 1);
    }
  }

  /** A restart followed by a full build: the last build frame shows k = K_FINAL,
      after BUILD_FRAMES ticks the pulse phase is next with the latch still off,
      and the completion signal fires exactly once over any longer run. */
  lemma RestartRebuilds(s: State, n: nat)
    requires Inv(s) && s.started
    ensures Key(s, RESTART).frame == 0
    ensures Render(Ticks(Key(s, RESTART), BUILD_FRAMES - 1)) == Drawn(K_FINAL, Steady, 1.0, false)
    ensures Ticks(Key(s, RESTART), BUILD_FRAMES).frame == BUILD_FRAMES
    ensures !Ticks(Key(s, RESTART), BUILD_FRAMES).completed
    ensures CompletionSignals(Key(s, RESTART), n) == if n > BUILD_FRAMES then 1 else 0
  {
    var r := Key(s, RESTART);
    BuildTicksAdvance(r, BUILD_FRAMES - 1);
    BuildTicksAdvance(r, BUILD_FRAMES);
    CompletionSignalOnce(r, n);
  }

  /** Repeated Up presses saturate at MAX_FPS. */
  lemma {:induction false} SpeedUpSaturates(s: State, n: nat)
    requires Inv(s) && s.started
    ensures Presses(s, UP, n).fps == if s.fps + n < MAX_FPS then s.fps + n else MAX_FPS
    ensures Inv(Presses(s, UP, n))
    decreases n
  {
    if n > 0 {
      SpeedUpSaturates(Key(s, UP), n - 1);
    }
  }

  /** Repeated Down presses saturate at MIN_FPS. */
  lemma {:induction false} SpeedDownSaturates(s: State, n: nat)
    requires Inv(s) && s.started
    ensures Presses(s, DOWN, n).fps == if s.fps - n > MIN_FPS then s.fps - n else MIN_FPS
    ensures Inv(Presses(s, DOWN, n))
    decreases n
  {
    if n > 0 {
      SpeedDownSaturates(Key(s, DOWN), n - 1);
    }
  }

  /** Before start, only Space, Enter and the quit keys have any effect:
      pressing any other key any number of times leaves the state as it was. */
  lemma {:induction false} SplashIgnoresKeys(s: State, key: string, n: nat)
    requires MIN_FPS <= s.fps <= MAX_FPS && !s.started
    requires key != SPACE && key != ENTER && key != QUIT && key != ESCAPE
    ensures Presses(s, key, n) == s
    decreases n
  {
    if n > 0 {
      SplashIgnoresKeys(Key(s, key), key, n - 1);
    }
  }
}
