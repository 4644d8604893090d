/**
  The scene script of the trailer: the `Scene` record, the constant `SCENES`
  and the half-open lookup the playback loop runs over it.

  Times are seconds as `real`; every boundary of the script is a multiple of
  half a second, so the values are exact.
*/
module Scenes {

  import opened Wrappers

  /** The five labels a scene's `soundEffect` may carry. */
  datatype SoundEffect = Boom | Whoosh | Blast | Glitch | Ambient

  /** The presentation style of a scene (its `type` field). */
  datatype SceneType = IntroScene | StackScene | HeroScene | ImpactScene | FinalScene | GlitchScene | TeaserScene

  datatype Scene = Scene(
    id: int,
    start: real,
    end: real,
    lines: seq<string>,
    subText: Option<string>,
    kind: SceneType,
    soundEffect: Option<SoundEffect>)

  const SCENES: seq<Scene> := [
    // Pre-trailer network montage
    Scene(101, 0.0, 3.0, ["INITIALIZING", "THE HUB NETWORK"], None, IntroScene, Some(Ambient)),
    Scene(102, 3.0, 6.0, ["MULTIPLE REALITIES", "DETECTED"], None, GlitchScene, Some(Glitch)),
    Scene(103, 6.0, 8.5, ["UPCOMING: CINEMA HUB"], Some("EXPLORE THE NEW ERA OF FILM // 2026"), TeaserScene, Some(Whoosh)),
    Scene(104, 8.5, 11.0, ["UPCOMING: TECH HUB"], Some("HARDWARE REDEFINED // 2026"), TeaserScene, Some(Whoosh)),
    Scene(105, 11.0, 13.5, ["UPCOMING: AI HUB"], Some("BEYOND SYNTHETIC THOUGHT // 2027"), TeaserScene, Some(Whoosh)),
    Scene(106, 13.5, 16.0, ["ACCESSING PRIMARY NODE..."], None, GlitchScene, Some(Glitch)),
    // Main trailer
    Scene(1, 16.0, 20.0, ["IN THE SILENCE"], None, IntroScene, Some(Ambient)),
    Scene(2, 20.0, 24.0, ["A NEW VISION"], None, IntroScene, Some(Whoosh)),
    Scene(3, 24.0, 29.0, ["FROM THE MINDS AT", "STYLE HUB"], Some("Innovation starts with a single thought"), HeroScene, Some(Boom)),
    Scene(4, 29.0, 32.0, ["PRESENTING"], None, IntroScene, Some(Whoosh)),
    Scene(5, 32.0, 36.0, ["THE NEXT", "GENERATION", "OF NEWS"], None, StackScene, Some(Blast)),
    Scene(6, 36.0, 40.0, ["SPEED"], None, ImpactScene, Some(Boom)),
    Scene(7, 40.0, 44.0, ["ACCURACY"], None, ImpactScene, Some(Boom)),
    Scene(8, 44.0, 48.0, ["ELEGANCE"], None, ImpactScene, Some(Boom)),
    Scene(9, 48.0, 53.0, ["A HI-TECH ENGINE"], Some("Engineered for clarity"), HeroScene, Some(Blast)),
    Scene(10, 53.0, 58.0, ["REDEFINING", "THE WAY", "YOU SEE"], None, StackScene, Some(Whoosh)),
    Scene(11, 58.0, 62.0, ["THE WORLD"], Some("Unfiltered. Unbiased. Unmatched."), HeroScene, Some(Blast)),
    Scene(12, 62.0, 66.0, ["2026"], None, ImpactScene, Some(Boom)),
    Scene(13, 66.0, 71.0, ["READY TO", "EXPERIENCE", "THE FUTURE"], None, GlitchScene, Some(Glitch)),
    Scene(14, 71.0, 76.0, ["A SMART,", "UNIQUE,", "AND PREMIUM", "PLATFORM"], None, StackScene, Some(Whoosh)),
    Scene(15, 76.0, 82.0, ["FOR YOU"], Some("Because information is a luxury."), HeroScene, Some(Blast)),
    Scene(16, 82.0, 88.0, ["BEYOND", "IMAGINATION"], Some("Beyond thinking"), HeroScene, Some(Blast)),
    Scene(17, 88.0, 96.0, ["STYLE HUB", "2026"], Some("Your demand. Our creation."), FinalScene, Some(Boom))
  ]

  /** Half-open membership: `t` lies in `[s.start, s.end)`. */
  predicate Covers(s: Scene, t: real) {
    s.start <= t < s.end
  }

  /**
    `scenes.find(s => t >= s.start && t < s.end)`, giving the index of the
    first scene that covers `t`, or `None` when no scene does.
  */
  function Find(scenes: seq<Scene>, t: real): (r: Option<nat>)
    ensures r.Some? ==> r.value < |scenes| && Covers(scenes[r.value], t)
    ensures r.Some? ==> forall j :: 0 <= j < r.value ==> !Covers(scenes[j], t)
    ensures r.None? <==> forall j :: 0 <= j < |scenes| ==> !Covers(scenes[j], t)
  {
    if |scenes| == 0 then None
    else if Covers(scenes[0], t) then Some(0)
    else
      match Find(scenes[1..], t)
      case None => None
      case Some(i) => Some(i + 1)
  }

  /**
    What the lookup relies on: the script is non-empty, starts at 0, every
    interval is non-empty and each scene ends where the next one starts.
  */
  predicate WellFormed(scenes: seq<Scene>) {
    && |scenes| > 0
    && scenes[0].start == 0.0
    && (forall i :: 0 <= i < |scenes| ==> scenes[i].start < scenes[i].end)
    && (forall i :: 0 <= i < |scenes| - 1 ==> scenes[i].end == scenes[i + 1].start)
  }

  /** No two scenes share an id. */
  predicate DistinctIds(scenes: seq<Scene>) {
    forall i, j :: 0 <= i < j < |scenes| ==> scenes[i].id != scenes[j].id
  }

  /** The end of the last scene: the length of the whole sequence. */
  function LastEnd(scenes: seq<Scene>): real
    requires |scenes| > 0
  {
    scenes[|scenes| - 1].end
  }

  /** In a well-formed script an earlier scene ends no later than a later one starts. */
  lemma {:induction false} EndsBeforeStart(scenes: seq<Scene>, i: nat, j: nat)
    requires WellFormed(scenes)
    requires i < j < |scenes|
    ensures scenes[i].end <= scenes[j].start
  {
    if j > i + 1 {
      EndsBeforeStart(scenes, i, j - 1);
      assert scenes[j - 1].end == scenes[j].start;
    }
  }

  /** At most one scene of a well-formed script covers any instant. */
  lemma CoverUnique(scenes: seq<Scene>, t: real, i: nat, j: nat)
    requires WellFormed(scenes)
    requires i < |scenes| && j < |scenes|
    requires Covers(scenes[i], t) && Covers(scenes[j], t)
    ensures i == j
  {
    if i < j {
      EndsBeforeStart(scenes, i, j);
    } else if j < i {
      EndsBeforeStart(scenes, j, i);
    }
  }

  /** Every scene of a well-formed script lies inside `[0, LastEnd)`. */
  lemma SceneWithinScript(scenes: seq<Scene>, i: nat)
    requires WellFormed(scenes)
    requires i < |scenes|
    ensures 0.0 <= scenes[i].start && scenes[i].end <= LastEnd(scenes)
  {
    if i > 0 {
      EndsBeforeStart(scenes, 0, i);
    }
    if i < |scenes| - 1 {
      EndsBeforeStart(scenes, i, |scenes| - 1);
    }
  }

  /** In a well-formed script the lookup finds `i` exactly when scene `i` covers `t`. */
  lemma FindExact(scenes: seq<Scene>, t: real, i: nat)
    requires WellFormed(scenes)
    requires i < |scenes|
    ensures Find(scenes, t) == Some(i) <==> Covers(scenes[i], t)
  {
    var r := Find(scenes, t);
    if Covers(scenes[i], t) {
      CoverUnique(scenes, t, i, r.value);
    }
  }

  /** Resolution is total on `[0, LastEnd)`. */
  lemma FindTotal(scenes: seq<Scene>, t: real)
    requires WellFormed(scenes)
    requires 0.0 <= t < LastEnd(scenes)
    ensures Find(scenes, t).Some?
  {
    var k := 0;
    while scenes[k].end <= t
      invariant 0 <= k < |scenes|
      invariant scenes[k].start <= t
      decreases |scenes| - k
    {
      k := k + 1;
    }
    assert Covers(scenes[k], t);
  }

  /** Before 0 and from `LastEnd` on, no scene matches. */
  lemma FindOutside(scenes: seq<Scene>, t: real)
    requires WellFormed(scenes)
    requires t < 0.0 || LastEnd(scenes) <= t
    ensures Find(scenes, t) == None
  {
    forall j | 0 <= j < |scenes|
      ensures !Covers(scenes[j], t)
    {
      SceneWithinScript(scenes, j);
    }
  }

  /** At a boundary shared by two scenes, the later one wins. */
  lemma FindBoundary(scenes: seq<Scene>, i: nat)
    requires WellFormed(scenes)
    requires i + 1 < |scenes|
    ensures Find(scenes, scenes[i].end) == Some(i + 1)
  {
    FindExact(scenes, scenes[i].end, i + 1);
  }

  /** Resolution never moves backwards in the script as time moves forwards. */
  lemma FindMonotone(scenes: seq<Scene>, t1: real, t2: real)
    requires WellFormed(scenes)
    requires t1 <= t2
    requires Find(scenes, t1).Some? && Find(scenes, t2).Some?
    ensures Find(scenes, t1).value <= Find(scenes, t2).value
  {
    var i, j := Find(scenes, t1).value, Find(scenes, t2).value;
    if j < i {
      EndsBeforeStart(scenes, j, i);
    }
  }

  /** Every scene of the shipped script has `end > start`. */
  lemma ScriptIntervals()
    ensures forall i :: 0 <= i < |SCENES| ==> SCENES[i].start < SCENES[i].end
  {
  }

  /** Each scene of the shipped script ends where the next one starts. */
  lemma ScriptContiguous()
    ensures forall i :: 0 <= i < |SCENES| - 1 ==> SCENES[i].end == SCENES[i + 1].start
  {
  }

  /** The shipped script: 23 scenes from 0 to 96 seconds, well formed. */
  lemma ScriptShape()
    ensures |SCENES| == 23
    ensures SCENES[0].start == 0.0 && LastEnd(SCENES) == 96.0
    ensures WellFormed(SCENES)
  {
    ScriptIntervals();
    ScriptContiguous();
  }

  /** Ids are 101 to 106 for the montage, then 1 to 17 for the main trailer. */
  lemma ScriptIds()
    ensures |SCENES| == 23
    ensures forall i :: 0 <= i < 6 ==> SCENES[i].id == 101 + i
    ensures forall i :: 6 <= i < 23 ==> SCENES[i].id == i - 5
  {
  }

  /** No two scenes of the shipped script share an id. */
  lemma ScriptIdsDistinct()
    ensures DistinctIds(SCENES)
  {
    ScriptIds();
  }

  /** `'ambient'` labels the first scene (id 101) and the scene with id 1. */
  lemma ScriptAmbientLabels()
    ensures SCENES[0].id == 101 && SCENES[0].soundEffect == Some(Ambient)
    ensures SCENES[6].id == 1 && SCENES[6].soundEffect == Some(Ambient)
    ensures forall i :: 0 <= i < |SCENES| && SCENES[i].soundEffect == Some(Ambient) ==> i == 0 || i == 6
  {
  }

  /**
    Over the shipped script every instant of `[0, 96)` resolves to exactly
    the one scene that covers it, and every other instant to none.
  */
  lemma ScriptResolution(t: real)
    ensures 0.0 <= t < 96.0 ==> Find(SCENES, t).Some?
    ensures forall i :: 0 <= i < |SCENES| ==> (Find(SCENES, t) == Some(i) <==> Covers(SCENES[i], t))
    ensures t < 0.0 || 96.0 <= t ==> Find(SCENES, t) == None
  {
    ScriptShape();
    if 0.0 <= t < 96.0 {
      FindTotal(SCENES, t);
    } else {
      FindOutside(SCENES, t);
    }
    forall i | 0 <= i < |SCENES|
      ensures Find(SCENES, t) == Some(i) <==> Covers(SCENES[i], t)
    {
      FindExact(SCENES, t, i);
    }
  }
}
