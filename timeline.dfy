/**
  The playback engine of the trailer page: `startExperience`, the per-frame
  `loop`, `playSound`, the unmount clean-up and the progress bar width.

  The host's services are inputs: the frame timestamp and `performance.now()`
  are parameters, the handle `requestAnimationFrame` returns is a parameter, and
  every request or cancellation of a frame is appended to `hostLog`. Every
  `playSound` that reaches a preloaded element is appended to `soundLog`.
  React state setters are immediate assignments.

  `EngineState` is the engine's state as a value and `Started`, `Ticked`,
  `SoundPlayed` and `Unmounted` say what each operation does to it; the class
  `Engine` keeps the same state in fields that its methods update in place.
*/
module Timeline {

  import opened Wrappers
  import opened Scenes

  /** A call into the host's frame scheduler. */
  datatype HostCall = RequestFrame(handle: int) | CancelFrame(handle: int)

  datatype EngineState = EngineState(
    hasStarted: bool,
    startTime: Option<real>,          // startTimeRef.current, milliseconds
    currentTime: real,                // seconds
    currentScene: Scene,
    loopScene: Scene,                 // `currentScene` as seen by the scheduled `loop` closure
    isFinished: bool,
    scheduled: Option<int>,           // rafRef.current
    sounds: map<SoundEffect, real>,   // preloaded audio elements and their playback positions
    ambientLooping: bool,
    soundLog: seq<SoundEffect>,
    hostLog: seq<HostCall>)

  /** How long past the end the loop keeps rescheduling itself, in seconds. */
  const Tail: real := 10.0

  /** The state of a freshly mounted engine, given the preloaded elements. */
  function Initial(script: seq<Scene>, sounds: map<SoundEffect, real>): (r: EngineState)
    requires |script| > 0
    ensures !r.hasStarted && !Anchored(r) && !r.isFinished
    ensures r.currentScene == script[0] && r.loopScene == script[0] && r.sounds == sounds
    ensures r.soundLog == [] && r.hostLog == []
  {
    EngineState(false, None, 0.0, script[0], script[0], false, None, sounds, false, [], [])
  }

  /** `if (!startTimeRef.current) return;` lets a tick through only past this test. */
  predicate Anchored(s: EngineState) {
    s.startTime.Some? && s.startTime.value != 0.0
  }

  /** Seconds elapsed between the anchor and a frame timestamp, both in milliseconds. */
  function Elapsed(timestamp: real, startTime: real): real {
    (timestamp - startTime) / 1000.0
  }

  /** `playSound(effect)`: rewind and play the preloaded element, if there is one. */
  function SoundPlayed(s: EngineState, effect: SoundEffect): (r: EngineState)
    ensures r.(sounds := s.sounds, soundLog := s.soundLog) == s
    ensures r.sounds.Keys == s.sounds.Keys
    ensures forall e :: e in s.sounds && e != effect ==> r.sounds[e] == s.sounds[e]
    ensures r.soundLog == s.soundLog || r.soundLog == s.soundLog + [effect]
  {
    if effect in s.sounds then
      s.(sounds := s.sounds[effect := 0.0], soundLog := s.soundLog + [effect])
    else
      s
  }

  /** `startExperience()` at host time `now`, the first frame getting `handle`. */
  function Started(s: EngineState, now: real, handle: int): (r: EngineState)
    ensures r.hasStarted && (Anchored(r) <==> now != 0.0)
    ensures r.loopScene == r.currentScene == s.currentScene && r.isFinished == s.isFinished
    ensures r.sounds == s.sounds && r.soundLog == s.soundLog
    ensures r.ambientLooping <==> s.ambientLooping || Ambient in s.sounds
    ensures r.scheduled == Some(handle) && r.hostLog == s.hostLog + [RequestFrame(handle)]
  {
    s.(hasStarted := true,
       ambientLooping := s.ambientLooping || Ambient in s.sounds,
       startTime := Some(now),
       loopScene := s.currentScene,
       scheduled := Some(handle),
       hostLog := s.hostLog + [RequestFrame(handle)])
  }

  /** The functional updater passed to `setCurrentScene`. */
  function SceneSwitched(s: EngineState, next: Scene): (r: EngineState)
    ensures r.currentScene.id == next.id
    ensures r.(currentScene := s.currentScene, sounds := s.sounds, soundLog := s.soundLog) == s
    ensures r.sounds.Keys == s.sounds.Keys
    ensures r.soundLog == s.soundLog
            || (r.currentScene == next && next.soundEffect.Some? && r.soundLog == s.soundLog + [next.soundEffect.value])
  {
    if s.currentScene.id != next.id then
      var played := if next.soundEffect.Some? then SoundPlayed(s, next.soundEffect.value) else s;
      played.(currentScene := next)
    else
      s
  }

  /**
    The part of a frame that sets the clock, detects the end and switches
    scenes, at `elapsed` seconds.
  */
  function Advanced(script: seq<Scene>, s: EngineState, elapsed: real): (r: EngineState)
    requires |script| > 0
    ensures r.currentTime == elapsed
    ensures r.(currentTime := s.currentTime, currentScene := s.currentScene, isFinished := s.isFinished,
               sounds := s.sounds, soundLog := s.soundLog) == s
    ensures r.isFinished <==> s.isFinished || elapsed > LastEnd(script)
    ensures r.sounds.Keys == s.sounds.Keys && s.soundLog <= r.soundLog && |r.soundLog| <= |s.soundLog| + 1
  {
    var active := Find(script, elapsed);
    var timed := s.(currentTime := elapsed);
    if elapsed > LastEnd(script) then timed.(isFinished := true)
    else if active.Some? && script[active.value].id != s.loopScene.id then SceneSwitched(timed, script[active.value])
    else timed
  }

  /** The part of a frame that requests the next one, up to `Tail` seconds past the end. */
  function Rescheduled(script: seq<Scene>, s: EngineState, elapsed: real, handle: int): (r: EngineState)
    requires |script| > 0
    ensures r.(scheduled := s.scheduled, hostLog := s.hostLog) == s
    ensures r.hostLog == s.hostLog || r.hostLog == s.hostLog + [RequestFrame(handle)]
  {
    if elapsed <= LastEnd(script) + Tail then
      s.(scheduled := Some(handle), hostLog := s.hostLog + [RequestFrame(handle)])
    else
      s
  }

  /**
    One `loop(timestamp)` frame over `script` (the page runs it over `SCENES`);
    `handle` is what the frame it schedules gets.
  */
  function Ticked(script: seq<Scene>, s: EngineState, timestamp: real, handle: int): (r: EngineState)
    requires |script| > 0
    ensures r.hasStarted == s.hasStarted && r.startTime == s.startTime && r.loopScene == s.loopScene
    ensures s.isFinished ==> r.isFinished
    ensures r.sounds.Keys == s.sounds.Keys
    ensures s.soundLog <= r.soundLog && |r.soundLog| <= |s.soundLog| + 1
    ensures s.hostLog <= r.hostLog && |r.hostLog| <= |s.hostLog| + 1
  {
    if !Anchored(s) then s
    else
      var elapsed := Elapsed(timestamp, s.startTime.value);
      Rescheduled(script, Advanced(script, s, elapsed), elapsed, handle)
  }

  /** The unmount clean-up: cancel the last requested frame if its handle is truthy. */
  function Unmounted(s: EngineState): (r: EngineState)
    ensures r.(hostLog := s.hostLog) == s
    ensures s.hostLog <= r.hostLog && |r.hostLog| <= |s.hostLog| + 1
  {
    if s.scheduled.Some? && s.scheduled.value != 0 then
      s.(hostLog := s.hostLog + [CancelFrame(s.scheduled.value)])
    else
      s
  }

  /** The width of the progress bar, in percent, for `currentTime` seconds. */
  function ProgressWidth(currentTime: real): (w: real)
    ensures w <= 100.0
    ensures 0.0 <= currentTime ==> 0.0 <= w
  {
    var pct := currentTime / 60.0 * 100.0;
    if pct < 100.0 then pct else 100.0
  }

  /** A sequence of frames, each a timestamp and the handle of the frame it schedules. */
  datatype Frame = Frame(timestamp: real, handle: int)

  /** The state after running `frames` one after another. */
  function Run(script: seq<Scene>, s: EngineState, frames: seq<Frame>): EngineState
    requires |script| > 0
    decreases |frames|
  {
    if frames == [] then s
    else Run(script, Ticked(script, s, frames[0].timestamp, frames[0].handle), frames[1..])
  }

  // ---------------------------------------------------------------------------
  // Properties of one frame

  /** Until the start time is set to something truthy, a frame changes nothing. */
  lemma TickBeforeStart(script: seq<Scene>, s: EngineState, timestamp: real, handle: int)
    requires |script| > 0
    requires s.startTime == None || s.startTime == Some(0.0)
    ensures Ticked(script, s, timestamp, handle) == s
  {
  }

  /**
    Every admitted frame sets `currentTime` to the unclamped elapsed seconds and
    leaves the anchor, the preloaded set and the captured scene alone.
  */
  lemma TickClock(script: seq<Scene>, s: EngineState, timestamp: real, handle: int)
    requires |script| > 0
    requires Anchored(s)
    ensures var r := Ticked(script, s, timestamp, handle);
      && r.currentTime == (timestamp - s.startTime.value) / 1000.0
      && r.startTime == s.startTime && r.loopScene == s.loopScene && r.hasStarted == s.hasStarted
  {
  }

  /**
    The scene changes exactly when the frame is at or before the end, some
    scene covers the elapsed time, and that scene's id differs both from the
    scene the loop closure captured and from the current one; the engine then
    shows that scene.
  */
  lemma TickSceneChange(script: seq<Scene>, s: EngineState, timestamp: real, handle: int)
    requires WellFormed(script)
    requires Anchored(s)
    ensures var e := Elapsed(timestamp, s.startTime.value);
      var r := Ticked(script, s, timestamp, handle);
      && (r.currentScene.id != s.currentScene.id <==>
            && e <= LastEnd(script)
            && (exists i :: 0 <= i < |script| && Covers(script[i], e)
                             && script[i].id != s.loopScene.id && script[i].id != s.currentScene.id))
      && (r.currentScene != s.currentScene ==>
            exists i :: 0 <= i < |script| && Covers(script[i], e) && r.currentScene == script[i])
  {
    var e := Elapsed(timestamp, s.startTime.value);
    assert Ticked(script, s, timestamp, handle).currentScene == Advanced(script, s, e).currentScene;
    if e <= LastEnd(script) && exists i :: 0 <= i < |script| && Covers(script[i], e)
                                      && script[i].id != s.loopScene.id && script[i].id != s.currentScene.id {
      var i :| 0 <= i < |script| && Covers(script[i], e)
               && script[i].id != s.loopScene.id && script[i].id != s.currentScene.id;
      FindExact(script, e, i);
    }
  }

  /**
    A frame fires at most one sound, and only on a scene change: the new
    scene's own label, whenever it has one with a preloaded element (the
    `'ambient'` label included), after rewinding that element.
  */
  lemma TickSound(script: seq<Scene>, s: EngineState, timestamp: real, handle: int)
    requires |script| > 0
    ensures var r := Ticked(script, s, timestamp, handle);
      && (r.soundLog == s.soundLog || r.soundLog == s.soundLog + [r.currentScene.soundEffect.value])
      && (r.soundLog != s.soundLog ==> r.currentScene.id != s.currentScene.id)
      && (r.currentScene.id != s.currentScene.id ==>
            (r.soundLog != s.soundLog <==>
               r.currentScene.soundEffect.Some? && r.currentScene.soundEffect.value in s.sounds))
      && (r.soundLog != s.soundLog ==> r.sounds == s.sounds[r.currentScene.soundEffect.value := 0.0])
      && (r.soundLog == s.soundLog ==> r.sounds == s.sounds)
  {
    if Anchored(s) {
      var e := Elapsed(timestamp, s.startTime.value);
      var a := Advanced(script, s, e);
      var r := Rescheduled(script, a, e, handle);
      assert r.soundLog == a.soundLog && r.currentScene == a.currentScene && r.sounds == a.sounds;
    }
  }

  /** Running a frame again with the same timestamp changes no scene and fires no sound. */
  lemma TickSameTimestamp(script: seq<Scene>, s: EngineState, timestamp: real, h1: int, h2: int)
    requires |script| > 0
    ensures var once := Ticked(script, s, timestamp, h1);
      var twice := Ticked(script, once, timestamp, h2);
      && twice.currentScene == once.currentScene && twice.soundLog == once.soundLog
      && twice.isFinished == once.isFinished && twice.currentTime == once.currentTime
  {
    var once := Ticked(script, s, timestamp, h1);
    if Anchored(s) {
      var e := Elapsed(timestamp, s.startTime.value);
      var active := Find(script, e);
      assert once.startTime == s.startTime && once.loopScene == s.loopScene;
      if e <= LastEnd(script) && active.Some? && script[active.value].id != s.loopScene.id {
        assert once.currentScene.id == script[active.value].id;
      }
    }
  }

  /**
    `isFinished` becomes true exactly on a frame past the end, and nothing
    ever sets it back.
  */
  lemma TickFinished(script: seq<Scene>, s: EngineState, timestamp: real, handle: int)
    requires |script| > 0
    ensures Ticked(script, s, timestamp, handle).isFinished <==>
              s.isFinished || (Anchored(s) && Elapsed(timestamp, s.startTime.value) > LastEnd(script))
  {
  }

  /** A frame past the end keeps the current scene and fires nothing. */
  lemma TickPastEnd(script: seq<Scene>, s: EngineState, timestamp: real, handle: int)
    requires |script| > 0
    requires Anchored(s) && Elapsed(timestamp, s.startTime.value) > LastEnd(script)
    ensures var r := Ticked(script, s, timestamp, handle);
      r.isFinished && r.currentScene == s.currentScene && r.soundLog == s.soundLog
  {
  }

  /** A frame at exactly the end changes neither the finish flag nor the scene. */
  lemma TickAtEnd(script: seq<Scene>, s: EngineState, timestamp: real, handle: int)
    requires WellFormed(script)
    requires Anchored(s) && Elapsed(timestamp, s.startTime.value) == LastEnd(script)
    ensures var r := Ticked(script, s, timestamp, handle);
      r.isFinished == s.isFinished && r.currentScene == s.currentScene && r.soundLog == s.soundLog
  {
    FindOutside(script, LastEnd(script));
  }

  /** A frame requests the next one if and only if it is at most `Tail` seconds past the end. */
  lemma TickReschedules(script: seq<Scene>, s: EngineState, timestamp: real, handle: int)
    requires |script| > 0
    ensures var r := Ticked(script, s, timestamp, handle);
      var goesOn := Anchored(s) && Elapsed(timestamp, s.startTime.value) <= LastEnd(script) + Tail;
      && (goesOn ==> r.hostLog == s.hostLog + [RequestFrame(handle)] && r.scheduled == Some(handle))
      && (!goesOn ==> r.hostLog == s.hostLog && r.scheduled == s.scheduled)
  {
  }

  /** `startExperience` anchors the clock, captures the scene and requests the first frame. */
  lemma StartAnchors(s: EngineState, now: real, handle: int)
    ensures var r := Started(s, now, handle);
      && r.hasStarted && r.startTime == Some(now) && r.loopScene == s.currentScene
      && r.hostLog == s.hostLog + [RequestFrame(handle)]
      && r.currentScene == s.currentScene && r.soundLog == s.soundLog && r.isFinished == s.isFinished
      && (Anchored(r) <==> now != 0.0)
  {
  }

  /** A start at host time exactly 0 leaves every later frame inert. */
  lemma StartAtZeroIsInert(script: seq<Scene>, s: EngineState, handle: int, frames: seq<Frame>)
    requires |script| > 0
    ensures Run(script, Started(s, 0.0, handle), frames) == Started(s, 0.0, handle)
  {
    var st := Started(s, 0.0, handle);
    var k := 0;
    while k < |frames|
      invariant 0 <= k <= |frames|
      invariant Run(script, st, frames) == Run(script, st, frames[k..])
    {
      assert frames[k..][1..] == frames[k + 1..];
      k := k + 1;
    }
    assert frames[k..] == [];
  }

  /** The unmount clean-up cancels the pending frame and changes nothing else. */
  lemma UnmountCancels(s: EngineState)
    ensures var r := Unmounted(s);
      && (s.scheduled.Some? && s.scheduled.value != 0 ==> r.hostLog == s.hostLog + [CancelFrame(s.scheduled.value)])
      && (s.scheduled == None || s.scheduled == Some(0) ==> r.hostLog == s.hostLog)
      && r.(hostLog := s.hostLog) == s
  {
  }

  /** `playSound` does nothing for an effect with no preloaded element and rewinds it otherwise. */
  lemma PlaySoundRewinds(s: EngineState, effect: SoundEffect)
    ensures var r := SoundPlayed(s, effect);
      && (effect !in s.sounds ==> r == s)
      && (effect in s.sounds ==> r.sounds == s.sounds[effect := 0.0] && r.soundLog == s.soundLog + [effect])
  {
  }

  // ---------------------------------------------------------------------------
  // Properties of the progress bar

  /** The bar is full exactly from 60 seconds on. */
  lemma ProgressFull(t: real)
    ensures ProgressWidth(t) == 100.0 <==> t >= 60.0
    ensures 0.0 <= t < 60.0 ==> ProgressWidth(t) < 100.0
  {
  }

  /** The bar never shrinks as time goes on. */
  lemma ProgressMonotone(t1: real, t2: real)
    requires t1 <= t2
    ensures ProgressWidth(t1) <= ProgressWidth(t2)
  {
  }

  // ---------------------------------------------------------------------------
  // Properties of a whole run

  /** The finish flag is sticky over any run of frames. */
  lemma {:induction false} RunFinishedSticky(script: seq<Scene>, s: EngineState, frames: seq<Frame>)
    requires |script| > 0
    requires s.isFinished
    ensures Run(script, s, frames).isFinished
    decreases |frames|
  {
    if frames != [] {
      TickFinished(script, s, frames[0].timestamp, frames[0].handle);
      RunFinishedSticky(script, Ticked(script, s, frames[0].timestamp, frames[0].handle), frames[1..]);
    }
  }

  /** Frame timestamps never go backwards. */
  predicate Monotone(frames: seq<Frame>) {
    forall i, j :: 0 <= i < j < |frames| ==> frames[i].timestamp <= frames[j].timestamp
  }

  /**
    The current scene is scene `k` of the script, and unless `k` is the first
    scene its start is at or before `lo` seconds.
  */
  predicate OnScript(script: seq<Scene>, s: EngineState, k: nat, lo: real) {
    k < |script| && s.currentScene == script[k] && (k == 0 || script[k].start <= lo)
  }

  /**
    With time moving forwards, a frame only ever moves to a later scene of the
    script, and it fires a sound only when it does.
  */
  lemma TickMovesForward(script: seq<Scene>, s: EngineState, k: nat, lo: real, f: Frame) returns (k': nat)
    requires WellFormed(script)
    requires Anchored(s) && OnScript(script, s, k, lo)
    requires lo <= Elapsed(f.timestamp, s.startTime.value)
    ensures var r := Ticked(script, s, f.timestamp, f.handle);
      && k <= k' && OnScript(script, r, k', Elapsed(f.timestamp, s.startTime.value))
      && Anchored(r) && r.startTime == s.startTime
      && |s.soundLog| <= |r.soundLog| <= |s.soundLog| + (k' - k)
      && (r.soundLog == s.soundLog
          || (k < k' && script[k'].soundEffect.Some? && r.soundLog == s.soundLog + [script[k'].soundEffect.value]))
  {
    var e := Elapsed(f.timestamp, s.startTime.value);
    var r := Ticked(script, s, f.timestamp, f.handle);
    TickSound(script, s, f.timestamp, f.handle);
    if r.currentScene.id == s.currentScene.id {
      k' := k;
    } else {
      var i := Find(script, e).value;
      assert r.currentScene == script[i];
      if i < k {
        EndsBeforeStart(script, i, k);
      }
      k' := i;
    }
  }

  /** Scene indices strictly between `k` and `n`, in increasing order. */
  predicate Ascending(ks: seq<nat>, k: nat, n: nat) {
    && (forall i :: 0 <= i < |ks| ==> k < ks[i] < n)
    && (forall i, j :: 0 <= i < j < |ks| ==> ks[i] < ks[j])
  }

  /** Increasing indices strictly between `k` and `n` number at most `n - 1 - k`. */
  lemma {:induction false} AscendingBound(ks: seq<nat>, k: nat, n: nat)
    requires k < n && Ascending(ks, k, n)
    ensures |ks| <= n - 1 - k
  {
    if ks != [] {
      assert Ascending(ks[1..], ks[0], n) by {
        forall i | 0 <= i < |ks[1..]|
          ensures ks[0] < ks[1..][i]
        {
          assert ks[1..][i] == ks[i + 1];
        }
      }
      AscendingBound(ks[1..], ks[0], n);
    }
  }

  /**
    Putting one frame's sound, if any, in front of the sounds of the rest of
    a run: when the frame moved to scene `k'` and fired its label, `k'` joins
    the front of the increasing scene indices.
  */
  lemma SoundStep(script: seq<Scene>, sLog: seq<SoundEffect>, rLog: seq<SoundEffect>, log: seq<SoundEffect>,
                  k: nat, k': nat, rest: seq<nat>) returns (ks: seq<nat>)
    requires k <= k' < |script|
    requires rLog == sLog || (k < k' && script[k'].soundEffect.Some? && rLog == sLog + [script[k'].soundEffect.value])
    requires rLog <= log && |log| == |rLog| + |rest| && Ascending(rest, k', |script|)
    requires forall i :: 0 <= i < |rest| ==> script[rest[i]].soundEffect == Some(log[|rLog| + i])
    ensures sLog <= log && |log| == |sLog| + |ks| && Ascending(ks, k, |script|)
    ensures forall i :: 0 <= i < |ks| ==> script[ks[i]].soundEffect == Some(log[|sLog| + i])
  {
    if rLog == sLog {
      ks := rest;
    } else {
      ks := [k'] + rest;
      assert log[|sLog|] == rLog[|sLog|];
      forall i | 0 < i < |ks|
        ensures script[ks[i]].soundEffect == Some(log[|sLog| + i])
      {
        assert ks[i] == rest[i - 1] && |sLog| + i == |rLog| + (i - 1);
      }
    }
  }

  /** The frames after the first of a run that never goes back in time come no earlier than it. */
  lemma LaterFrames(frames: seq<Frame>, startTime: real)
    requires |frames| > 0 && Monotone(frames)
    ensures Monotone(frames[1..])
    ensures forall i :: 0 <= i < |frames[1..]| ==>
              Elapsed(frames[0].timestamp, startTime) <= Elapsed(frames[1..][i].timestamp, startTime)
  {
    forall i | 0 <= i < |frames[1..]|
      ensures Elapsed(frames[0].timestamp, startTime) <= Elapsed(frames[1..][i].timestamp, startTime)
    {
      assert frames[1..][i] == frames[i + 1];
    }
  }

  /**
    Over a run whose timestamps never go backwards, starting on scene `k`,
    the sounds fired are, in order, a subsequence of the labels of the scenes
    after `k`: sound `i` is the label of scene `ks[i]`, and the `ks` strictly
    increase. Labels repeat across scenes, so the log alone does not name the
    scene that fired each sound.
  */
  lemma {:induction false} RunSoundBound(script: seq<Scene>, s: EngineState, k: nat, lo: real, frames: seq<Frame>)
      returns (ks: seq<nat>)
    requires WellFormed(script)
    requires Anchored(s) && OnScript(script, s, k, lo)
    requires Monotone(frames)
    requires forall i :: 0 <= i < |frames| ==> lo <= Elapsed(frames[i].timestamp, s.startTime.value)
    ensures var log := Run(script, s, frames).soundLog;
      && s.soundLog <= log && |log| == |s.soundLog| + |ks|
      && Ascending(ks, k, |script|)
      && (forall i :: 0 <= i < |ks| ==> script[ks[i]].soundEffect == Some(log[|s.soundLog| + i]))
    ensures |Run(script, s, frames).soundLog| <= |s.soundLog| + (|script| - 1 - k)
    decreases |frames|
  {
    if frames == [] {
      ks := [];
    } else {
      var f := frames[0];
      var e := Elapsed(f.timestamp, s.startTime.value);
      var k' := TickMovesForward(script, s, k, lo, f);
      var r := Ticked(script, s, f.timestamp, f.handle);
      LaterFrames(frames, s.startTime.value);
      var rest := RunSoundBound(script, r, k', e, frames[1..]);
      assert Run(script, s, frames) == Run(script, r, frames[1..]);
      ks := SoundStep(script, s.soundLog, r.soundLog, Run(script, s, frames).soundLog, k, k', rest);
      AscendingBound(ks, k, |script|);
    }
  }

  /**
    One playback from a freshly mounted engine, with frame timestamps that
    never go backwards: the sound log is, in order, a subsequence of the
    labels of the scenes after the first (sound `i` is the label of scene
    `ks[i]`, the `ks` strictly increasing), so at most `|script| - 1` sounds
    fire.
  */
  lemma PlaybackSoundBound(script: seq<Scene>, sounds: map<SoundEffect, real>, now: real, handle: int, frames: seq<Frame>)
      returns (ks: seq<nat>)
    requires WellFormed(script)
    requires now != 0.0
    requires Monotone(frames)
    ensures var log := Run(script, Started(Initial(script, sounds), now, handle), frames).soundLog;
      && |log| == |ks| && Ascending(ks, 0, |script|)
      && (forall i :: 0 <= i < |ks| ==> script[ks[i]].soundEffect == Some(log[i]))
    ensures |Run(script, Started(Initial(script, sounds), now, handle), frames).soundLog| <= |script| - 1
  {
    var s := Started(Initial(script, sounds), now, handle);
    var lo := if frames == [] then 0.0 else Elapsed(frames[0].timestamp, now);
    forall i | 0 <= i < |frames|
      ensures lo <= Elapsed(frames[i].timestamp, now)
    {
      if i > 0 {
        assert frames[0].timestamp <= frames[i].timestamp;
      }
    }
    ks := RunSoundBound(script, s, 0, lo, frames);
  }

  /**
    The page's own numbers: the sequence finishes after 96 seconds, frames
    stop being requested after 106, one playback fires at most 22 scene
    sounds, and the progress bar is already full at the end.
  */
  lemma ShippedScript(sounds: map<SoundEffect, real>, now: real, handle: int, frames: seq<Frame>)
    requires now != 0.0
    requires Monotone(frames)
    ensures LastEnd(SCENES) == 96.0 && LastEnd(SCENES) + Tail == 106.0
    ensures |Run(SCENES, Started(Initial(SCENES, sounds), now, handle), frames).soundLog| <= 22
    ensures ProgressWidth(60.0) == 100.0 && 60.0 < LastEnd(SCENES)
  {
    ScriptShape();
    var _ := PlaybackSoundBound(SCENES, sounds, now, handle, frames);
  }

  // ---------------------------------------------------------------------------
  // The engine as a component with state

  class Engine {
    /** The script the loop reads: `SCENES`. */
    const script: seq<Scene>

    var hasStarted: bool
    var startTime: Option<real>
    var currentTime: real
    var currentScene: Scene
    var loopScene: Scene
    var isFinished: bool
    var scheduled: Option<int>
    var sounds: map<SoundEffect, real>
    var ambientLooping: bool
    var soundLog: seq<SoundEffect>
    var hostLog: seq<HostCall>

    /** The fields as one value. */
    function Snapshot(): EngineState
      reads this
    {
      EngineState(hasStarted, startTime, currentTime, currentScene, loopScene, isFinished,
                  scheduled, sounds, ambientLooping, soundLog, hostLog)
    }

    /** Mount: the initial state, with the elements the preload effect created. */
    constructor (preloaded: map<SoundEffect, real>)
      ensures script == SCENES && WellFormed(script)
      ensures Snapshot() == Initial(script, preloaded)
    {
      ScriptShape();
      script := SCENES;
      hasStarted, startTime, currentTime := false, None, 0.0;
      currentScene, loopScene, isFinished := SCENES[0], SCENES[0], false;
      scheduled, sounds, ambientLooping := None, preloaded, false;
      soundLog, hostLog := [], [];
    }

    method PlaySound(effect: SoundEffect)
      modifies this
      ensures Snapshot() == SoundPlayed(old(Snapshot()), effect)
    {
      if effect in sounds {
        sounds := sounds[effect := 0.0];
        soundLog := soundLog + [effect];
      }
    }

    /** `now` is `performance.now()`; `handle` is what `requestAnimationFrame` returns. */
    method StartExperience(now: real, handle: int)
      modifies this
      ensures Snapshot() == Started(old(Snapshot()), now, handle)
    {
      hasStarted := true;
      if Ambient in sounds {
        ambientLooping := true;
      }
      loopScene := currentScene;
      startTime := Some(now);
      scheduled := Some(handle);
      hostLog := hostLog + [RequestFrame(handle)];
    }

    /** One animation frame at `timestamp`; `handle` is what the next request returns. */
    method Loop(timestamp: real, handle: int)
      requires |script| > 0
      modifies this
      ensures Snapshot() == Ticked(script, old(Snapshot()), timestamp, handle)
    {
      if startTime.None? || startTime.value == 0.0 {
        return;
      }
      var elapsed := (timestamp - startTime.value) / 1000.0;
      ghost var before := Snapshot();
      currentTime := elapsed;

      var active := Find(script, elapsed);

      var lastScene := script[|script| - 1];
      if elapsed > lastScene.end {
        isFinished := true;
      } else if active.Some? && script[active.value].id != loopScene.id {
        var next := script[active.value];
        if currentScene.id != next.id {
          if next.soundEffect.Some? {
            PlaySound(next.soundEffect.value);
          }
          currentScene := next;
        }
      }
      assert Snapshot() == Advanced(script, before, elapsed);

      if elapsed <= lastScene.end + Tail {
        scheduled := Some(handle);
        hostLog := hostLog + [RequestFrame(handle)];
      }
    }

    /** The clean-up the mount effect returns. */
    method Unmount()
      modifies this
      ensures Snapshot() == Unmounted(old(Snapshot()))
    {
      if scheduled.Some? && scheduled.value != 0 {
        hostLog := hostLog + [CancelFrame(scheduled.value)];
      }
    }
  }
}
