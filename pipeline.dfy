/**
 * The driver loop of `threadBoth` (run.py:46-55).
 *
 * A capture stage (`VideoGet`) and a display stage (`VideoShow`) each run
 * on their own thread; the main thread polls both `stopped` flags, and while
 * neither is set it hands the latest captured frame, resized to width 1080,
 * to the display stage. When either flag is set it stops the display stage,
 * then the capture stage, and leaves the loop.
 *
 * The other two threads are modelled as an environment: before each check of
 * the driver they may publish a new captured frame and may set their own
 * `stopped` flag. A finite sequence of such observations replaces the
 * scheduler, which turns the concurrent program into a deterministic loop.
 */
module Pipeline {

  /** A decoded image; its pixels play no part in the driver. */
  type Frame

  /** The width the driver resizes every frame to (run.py:54). */
  const ResizeWidth: nat := 1080

  datatype Role = Getter | Shower

  /** What the other threads did since the driver last looked. */
  datatype Observation = Observation(getterStops: bool, showerStops: bool, captured: Frame)

  /** The driver's own visible actions, in the order it performs them. */
  datatype Event = Stopped(role: Role) | Handoff(frame: Frame)

  /** The order in which the stages see the driver's actions: a ghost record shared by both. */
  class Log {
    ghost var events: seq<Event>

    constructor ()
      ensures events == []
    {
      events := [];
    }
  }

  /** A pipeline stage: the fields of `VideoGet` and `VideoShow` the driver touches. */
  class Stage {
    ghost const role: Role
    var stopped: bool
    var frame: Frame
    ghost var stopCalls: nat

    /**
     * A started stage. Whether it is already stopped when the driver first
     * looks is left to the environment: `VideoGet` and `VideoShow` are not
     * part of this model.
     */
    constructor Start(role: Role, initial: Frame, stoppedAtStart: bool)
      ensures this.role == role && frame == initial && stopped == stoppedAtStart && stopCalls == 0
    {
      this.role := role;
      frame := initial;
      stopped := stoppedAtStart;
      stopCalls := 0;
    }

    /** `stop()`: sets the liveness flag, idempotently, and records the call in `log`. */
    method Stop(log: Log)
      modifies this`stopped, this`stopCalls, log
      ensures stopped && stopCalls == old(stopCalls) + 1
      ensures log.events == old(log.events) + [Stopped(role)]
    {
      stopped := true;
      stopCalls := stopCalls + 1;
      log.events := log.events + [Stopped(role)];
    }
  }

  /**
   * The capture and display threads between two checks of the driver: the
   * capture thread publishes its latest frame, and either thread may stop.
   * A stopped flag is never cleared.
   */
  method OtherThreadsRun(getter: Stage, shower: Stage, obs: Observation)
    requires getter != shower
    modifies getter`frame, getter`stopped, shower`stopped
    ensures getter.frame == obs.captured
    ensures getter.stopped == (old(getter.stopped) || obs.getterStops)
    ensures shower.stopped == (old(shower.stopped) || obs.showerStops)
  {
    getter.frame := obs.captured;
    getter.stopped := getter.stopped || obs.getterStops;
    shower.stopped := shower.stopped || obs.showerStops;
  }

  /**
   * One pass of the driver's `while True` body. The driver writes only the
   * display stage's frame, and the two flags only through `stop()`.
   */
  method DriverStep(getter: Stage, shower: Stage, log: Log, resize: (Frame, nat) -> Frame)
    returns (done: bool)
    requires getter != shower
    requires getter.role == Getter && shower.role == Shower
    modifies getter`stopped, getter`stopCalls, shower`stopped, shower`stopCalls, shower`frame, log
    ensures done == old(getter.stopped || shower.stopped)
    ensures getter.frame == old(getter.frame)
    ensures done ==> getter.stopped && shower.stopped
    ensures done ==> getter.stopCalls == old(getter.stopCalls) + 1 && shower.stopCalls == old(shower.stopCalls) + 1
    ensures done ==> shower.frame == old(shower.frame) && log.events == old(log.events) + [Stopped(Shower), Stopped(Getter)]
    ensures !done ==> shower.frame == resize(old(getter.frame), ResizeWidth) && log.events == old(log.events) + [Handoff(shower.frame)]
    ensures !done ==> unchanged(getter) && shower.stopped == old(shower.stopped) && shower.stopCalls == old(shower.stopCalls)
  {
    if getter.stopped || shower.stopped {
      shower.Stop(log);
      getter.Stop(log);
      done := true;
    } else {
      var frame := getter.frame;
      frame := resize(frame, ResizeWidth);
      shower.frame := frame;
      log.events := log.events + [Handoff(frame)];
      done := false;
    }
  }

  /**
   * The events the driver produces, starting with flags `g` (capture stage
   * stopped) and `s` (display stage stopped), when the other threads behave
   * as `env` says before each of its checks.
   */
  function DriverEvents(g: bool, s: bool, env: seq<Observation>, resize: (Frame, nat) -> Frame): seq<Event>
  {
    if env == [] then []
    else
      var g', s' := g || env[0].getterStops, s || env[0].showerStops;
      if g' || s' then [Stopped(Shower), Stopped(Getter)]
      else [Handoff(resize(env[0].captured, ResizeWidth))] + DriverEvents(g', s', env[1..], resize)
  }

  /** The iteration at which the driver leaves the loop, or |env| if it does not within `env`. */
  function FirstStop(g: bool, s: bool, env: seq<Observation>): (k: nat)
    ensures k <= |env|
  {
    if env == [] then 0
    else
      var g', s' := g || env[0].getterStops, s || env[0].showerStops;
      if g' || s' then 0 else 1 + FirstStop(g', s', env[1..])
  }

  /** What the driver reads from the capture stage's flag at iteration `j`. */
  ghost predicate GetterStoppedAt(g: bool, env: seq<Observation>, j: nat)
    requires j < |env|
  {
    g || exists i :: 0 <= i <= j && env[i].getterStops
  }

  /** What the driver reads from the display stage's flag at iteration `j`. */
  ghost predicate ShowerStoppedAt(s: bool, env: seq<Observation>, j: nat)
    requires j < |env|
  {
    s || exists i :: 0 <= i <= j && env[i].showerStops
  }

  /**
   * The driver leaves the loop at the first iteration that sees a stopped
   * flag, and never while both flags read false.
   */
  lemma {:induction false} FirstStopIsFirst(g: bool, s: bool, env: seq<Observation>)
    ensures forall j :: 0 <= j < FirstStop(g, s, env) ==> !GetterStoppedAt(g, env, j) && !ShowerStoppedAt(s, env, j)
    ensures FirstStop(g, s, env) < |env| ==>
      GetterStoppedAt(g, env, FirstStop(g, s, env)) || ShowerStoppedAt(s, env, FirstStop(g, s, env))
  {
    if env != [] {
      var g', s' := g || env[0].getterStops, s || env[0].showerStops;
      if !(g' || s') {
        var rest := env[1..];
        FirstStopIsFirst(g', s', rest);
        var k := FirstStop(g, s, env);
        forall j | 0 <= j < k
          ensures !GetterStoppedAt(g, env, j) && !ShowerStoppedAt(s, env, j)
        {
          if j > 0 {
            assert !GetterStoppedAt(g', rest, j - 1) && !ShowerStoppedAt(s', rest, j - 1);
            forall i | 0 <= i <= j ensures !env[i].getterStops && !env[i].showerStops {
              if i > 0 { assert env[i] == rest[i - 1]; }
            }
          }
        }
        if k < |env| {
          assert GetterStoppedAt(g', rest, k - 1) || ShowerStoppedAt(s', rest, k - 1);
          if !g' && (exists i :: 0 <= i <= k - 1 && rest[i].getterStops) {
            var i :| 0 <= i <= k - 1 && rest[i].getterStops;
            assert env[i + 1].getterStops;
          }
          if !s' && (exists i :: 0 <= i <= k - 1 && rest[i].showerStops) {
            var i :| 0 <= i <= k - 1 && rest[i].showerStops;
            assert env[i + 1].showerStops;
          }
        }
      }
    }
  }

  /**
   * Before its exit the driver hands over, at each iteration, the frame it
   * read in that iteration, resized; on exit it stops the display stage and
   * then the capture stage, and does nothing else.
   */
  lemma {:induction false} DriverEventsShape(g: bool, s: bool, env: seq<Observation>, resize: (Frame, nat) -> Frame)
    ensures var k, ev := FirstStop(g, s, env), DriverEvents(g, s, env, resize);
      |ev| == (if k < |env| then k + 2 else k) &&
      (forall j :: 0 <= j < k ==> ev[j] == Handoff(resize(env[j].captured, ResizeWidth))) &&
      (k < |env| ==> ev[k] == Stopped(Shower) && ev[k + 1] == Stopped(Getter))
  {
    if env != [] {
      var g', s' := g || env[0].getterStops, s || env[0].showerStops;
      if !(g' || s') {
        var rest := env[1..];
        DriverEventsShape(g', s', rest, resize);
        var ev := DriverEvents(g, s, env, resize);
        forall j | 1 <= j < FirstStop(g, s, env)
          ensures ev[j] == Handoff(resize(env[j].captured, ResizeWidth))
        {
          assert env[j] == rest[j - 1];
        }
      }
    }
  }

  /** How often `e` occurs in `ev`. */
  ghost function Occurrences(ev: seq<Event>, e: Event): nat
  {
    if ev == [] then 0 else (if ev[0] == e then 1 else 0) + Occurrences(ev[1..], e)
  }

  /**
   * Each stage is stopped exactly once when the driver exits and never
   * otherwise, and once a stage is stopped no frame is handed over.
   */
  lemma {:induction false} StopsOnceAndLast(g: bool, s: bool, env: seq<Observation>, resize: (Frame, nat) -> Frame)
    ensures var exits, ev := FirstStop(g, s, env) < |env|, DriverEvents(g, s, env, resize);
      Occurrences(ev, Stopped(Shower)) == (if exits then 1 else 0) &&
      Occurrences(ev, Stopped(Getter)) == (if exits then 1 else 0) &&
      (forall i :: 0 <= i < |ev| && ev[i].Stopped? ==>
         (i == |ev| - 2 && ev[i] == Stopped(Shower)) || (i == |ev| - 1 && ev[i] == Stopped(Getter)))
  {
    if env != [] {
      var g', s' := g || env[0].getterStops, s || env[0].showerStops;
      var ev := DriverEvents(g, s, env, resize);
      if g' || s' {
        assert ev[1..] == [Stopped(Getter)] && ev[1..][1..] == [];
        assert Occurrences(ev[1..], Stopped(Shower)) == 0;
        assert Occurrences(ev[1..], Stopped(Getter)) == 1;
      } else {
        var tail := DriverEvents(g', s', env[1..], resize);
        StopsOnceAndLast(g', s', env[1..], resize);
        assert ev[1..] == tail;
        forall i | 0 <= i < |ev| && ev[i].Stopped?
          ensures (i == |ev| - 2 && ev[i] == Stopped(Shower)) || (i == |ev| - 1 && ev[i] == Stopped(Getter))
        {
          assert i > 0 && ev[i] == tail[i - 1];
        }
      }
    }
  }

  /**
   * `threadBoth` from the moment both stages have started: the loop of
   * run.py:46-55, run against the environment `env`. `exited` says whether
   * the driver left the loop within `env`; `log` receives the trace of its
   * own actions.
   */
  method ThreadBoth(getter: Stage, shower: Stage, log: Log, env: seq<Observation>, resize: (Frame, nat) -> Frame)
    returns (exited: bool)
    requires getter != shower
    requires getter.role == Getter && shower.role == Shower
    modifies getter, shower, log
    ensures log.events == old(log.events) + DriverEvents(old(getter.stopped), old(shower.stopped), env, resize)
    ensures exited == (FirstStop(old(getter.stopped), old(shower.stopped), env) < |env|)
    ensures exited ==> getter.stopped && shower.stopped
    ensures exited ==> getter.stopCalls == old(getter.stopCalls) + 1 && shower.stopCalls == old(shower.stopCalls) + 1
    ensures !exited && env != [] ==> !getter.stopped && !shower.stopped
    ensures !exited ==> getter.stopCalls == old(getter.stopCalls) && shower.stopCalls == old(shower.stopCalls)
    ensures var k := FirstStop(old(getter.stopped), old(shower.stopped), env);
      shower.frame == if k == 0 then old(shower.frame) else resize(env[k - 1].captured, ResizeWidth)
  {
    ghost var g0, s0 := getter.stopped, shower.stopped;
    ghost var k := FirstStop(g0, s0, env);
    ghost var before := log.events;
    exited := false;
    var i := 0;
    while i < |env|
      invariant i <= k
      invariant k == i + FirstStop(getter.stopped, shower.stopped, env[i..])
      invariant log.events + DriverEvents(getter.stopped, shower.stopped, env[i..], resize) == before + DriverEvents(g0, s0, env, resize)
      invariant i > 0 ==> !getter.stopped && !shower.stopped
      invariant getter.stopCalls == old(getter.stopCalls) && shower.stopCalls == old(shower.stopCalls)
      invariant shower.frame == if i == 0 then old(shower.frame) else resize(env[i - 1].captured, ResizeWidth)
    {
      OtherThreadsRun(getter, shower, env[i]);
      var done := DriverStep(getter, shower, log, resize);
      if done {
        exited := true;
        break;
      }
      assert env[i..][1..] == env[i + 1..];
      i := i + 1;
    }
  }

  /** The user presses 'q' during the second iteration: both stages end stopped, each stopped once. */
  method QuitKeyScenario(seed: Frame, f1: Frame, f2: Frame, resize: (Frame, nat) -> Frame)
  {
    var log := new Log();
    var getter := new Stage.Start(Getter, seed, false);
    var shower := new Stage.Start(Shower, seed, false);
    var env := [Observation(false, false, f1), Observation(false, true, f2)];
    var exited := ThreadBoth(getter, shower, log, env, resize);
    assert FirstStop(false, false, env) == 1;
    assert exited && getter.stopped && shower.stopped;
    assert getter.stopCalls == 1 && shower.stopCalls == 1;
    assert shower.frame == resize(f1, ResizeWidth);
    assert log.events == [Handoff(resize(f1, ResizeWidth)), Stopped(Shower), Stopped(Getter)];
  }

  /** The capture stage is stopped from the start: the display stage never gets a frame beyond its seed. */
  method UnavailableSourceScenario(seed: Frame, f1: Frame, resize: (Frame, nat) -> Frame)
  {
    var log := new Log();
    var getter := new Stage.Start(Getter, seed, true);
    var shower := new Stage.Start(Shower, seed, false);
    var exited := ThreadBoth(getter, shower, log, [Observation(false, false, f1)], resize);
    assert exited && shower.stopped && shower.frame == seed;
    assert log.events == [Stopped(Shower), Stopped(Getter)];
  }
}
