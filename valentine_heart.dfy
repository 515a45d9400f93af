/** The animation object: it owns the mutable fields and updates them in
    place from the timer and event callbacks. Each callback is proved to
    move the fields exactly as the matching function of HeartModel says. */
module Valentine {
  import opened HeartModel
  import Easing

  class ValentineHeart {
    var frame: nat
    var paused: bool
    var fps: nat
    var completed: bool
    var started: bool
    var splashTick: nat
    var hovering: bool
    var interval: nat
    var message: Message
    var closed: bool

    /** The fields as one value of the specification's state. */
    function Snapshot(): State
      reads this
    {
      State(frame, paused, fps, completed, started, splashTick, hovering, interval, message, closed)
    }

    ghost predicate Valid()
      reads this
    {
      Inv(Snapshot())
    }

    /** A fresh animation waits on the splash screen at the initial speed,
        with the timer at the splash rate. */
    constructor ()
      ensures Valid()
      ensures Snapshot() == Initial()
    {
      frame := 0;
      paused := false;
      fps := INITIAL_FPS;
      completed := false;
      started := false;
      splashTick := 0;
      hovering := false;
      interval := 1000 / SPLASH_FPS;
      message := Blank;
      closed := false;
    }

    /** Dismisses the splash screen and switches the timer to the animation rate. */
    method StartAnimation()
      requires MIN_FPS <= fps <= MAX_FPS
      modifies this
      ensures Snapshot() == Start(old(Snapshot()))
    {
      started := true;
      interval := 1000 / fps;
    }

    /** One timer tick: returns what is drawn and advances the animation. */
    method Update() returns (out: Output)
      requires Valid()
      modifies this
      ensures Valid()
      ensures out == Render(old(Snapshot()))
      ensures Snapshot() == Next(old(Snapshot()))
    {
      if !started {
        splashTick := splashTick + 1;
        out := Glow(splashTick);
        return;
      }
      if paused {
        out := Frozen;
        return;
      }
      var f := frame;
      if f < BUILD_FRAMES {
        var t := Progress(f);
        var k := K_FINAL * Easing.Ease(t);
        out := Drawn(k, Steady, 0.4 + 0.6 * t, false);
        completed := false;
      } else {
        var firstPulse := !completed;
        if !completed {
          completed := true;
          message := Completion;
        }
        out := Drawn(K_FINAL, Breathing(f - BUILD_FRAMES), 1.0, firstPulse);
      }
      frame := frame + 1;
      if frame >= BUILD_FRAMES + PULSE_FRAMES {
        frame := BUILD_FRAMES;
      }
    }

    /** A mouse click at p (figure coordinates; None when the event has no position). */
    method OnClick(p: Option<Point>)
      requires Valid()
      modifies this
      ensures Valid()
      ensures Snapshot() == Click(old(Snapshot()), p)
    {
      if !started {
        if OverButton(p) {
          StartAnimation();
        }
      }
    }

    /** Pointer motion to p: tracks whether the pointer is over the start button. */
    method OnMotion(p: Option<Point>)
      requires Valid()
      modifies this
      ensures Valid()
      ensures Snapshot() == Motion(old(Snapshot()), p)
    {
      if !started {
        var over := OverButton(p);
        if over && !hovering {
          hovering := true;
        } else if !over && hovering {
          hovering := false;
        }
      }
    }

    /** A key press, named as the windowing layer names keys. */
    method OnKeyPress(key: string)
      requires Valid()
      modifies this
      ensures Valid()
      ensures Snapshot() == Key(old(Snapshot()), key)
    {
      if !started {
        if key == SPACE || key == ENTER {
          StartAnimation();
        } else if key == QUIT || key == ESCAPE {
          closed := true;
        }
        return;
      }

      if key == SPACE {
        paused := !paused;
        if paused {
          message := PausedNotice;
        } else if completed {
          message := Completion;
        } else {
          message := Blank;
        }
      } else if key == RESTART {
        frame := 0;
        completed := false;
        paused := false;
        message := Blank;
      } else if key == QUIT || key == ESCAPE {
        closed := true;
      } else if key == UP {
        fps := if fps + 1 < MAX_FPS then fps + 1 else MAX_FPS;
        interval := 1000 / fps;
      } else if key == DOWN {
        fps := if fps - 1 > MIN_FPS then fps - 1 else MIN_FPS;
        interval := 1000 / fps;
      }
    }
  }
}
