/**
  The synthesised audio layer: the lazily created audio context, the registry
  of nodes that make up the ambient bed (`activeNodes`, `activeGainNodes`),
  and the dispatch of one-shot effects.

  Audio nodes are opaque handles told apart by a serial number. What the audio
  graph does with them is not modelled; creating a node, `stop()` on a source
  and `disconnect()` on a gain are appended to `effects` in the order they are
  made. Whether the host provides an `AudioContext` class is a parameter.
*/
module Audio {

  import opened Wrappers

  datatype NodeKind = Oscillator | Gain | BiquadFilter | BufferSource

  /** An opaque handle to an audio node. */
  datatype Node = Node(id: nat, kind: NodeKind)

  /** An observable call into the audio graph. */
  datatype AudioEffect = Create(node: Node) | Stop(node: Node) | Disconnect(node: Node)

  /** Nodes with `start`/`stop`: the ones `activeNodes` may hold. */
  predicate IsSource(kind: NodeKind) {
    kind == Oscillator || kind == BufferSource
  }

  /** Creating nodes of `kinds` in order, numbered from `base`. */
  function Created(base: nat, kinds: seq<NodeKind>): seq<AudioEffect> {
    seq(|kinds|, i requires 0 <= i < |kinds| => Create(Node(base + i, kinds[i])))
  }

  /** `nodes.forEach(node => node.stop())`, errors swallowed: each node stopped once, in order. */
  function StopAll(nodes: seq<Node>): (r: seq<AudioEffect>)
    ensures |r| == |nodes|
    ensures forall i :: 0 <= i < |nodes| ==> r[i] == Stop(nodes[i])
  {
    if nodes == [] then [] else StopAll(nodes[..|nodes| - 1]) + [Stop(nodes[|nodes| - 1])]
  }

  /** `gains.forEach(node => node.disconnect())`, errors swallowed: each gain disconnected once, in order. */
  function DisconnectAll(gains: seq<Node>): (r: seq<AudioEffect>)
    ensures |r| == |gains|
    ensures forall i :: 0 <= i < |gains| ==> r[i] == Disconnect(gains[i])
  {
    if gains == [] then [] else DisconnectAll(gains[..|gains| - 1]) + [Disconnect(gains[|gains| - 1])]
  }

  /**
    The nodes `playAmbient` creates, in order: master gain, drone oscillator,
    its LFO and the LFO's gain, pad oscillator, low-pass filter, its LFO, the
    LFO's gain and the pad's gain.
  */
  const AmbientKinds: seq<NodeKind> :=
    [Gain, Oscillator, Oscillator, Gain, Oscillator, BiquadFilter, Oscillator, Gain, Gain]

  /** The sources `playAmbient` tracks: `osc1`, `lfo1`, `osc2`, `lfo2`. */
  function AmbientSources(base: nat): seq<Node> {
    [Node(base + 1, Oscillator), Node(base + 2, Oscillator), Node(base + 4, Oscillator), Node(base + 6, Oscillator)]
  }

  /** The gains `playAmbient` tracks: master, `lfo1Gain`, `lfo2Gain`, `osc2Gain`. */
  function AmbientGains(base: nat): seq<Node> {
    [Node(base, Gain), Node(base + 3, Gain), Node(base + 7, Gain), Node(base + 8, Gain)]
  }

  /** `n` oscillator/gain pairs, as the `glitch` burst creates them. */
  function GlitchKinds(n: nat): seq<NodeKind> {
    if n == 0 then [] else GlitchKinds(n - 1) + [Oscillator, Gain]
  }

  /**
    The nodes `playSfx(type)` creates once past its guard: something exactly
    for the four known cues, each starting with a source.
  */
  function SfxKinds(sfx: string): (r: seq<NodeKind>)
    ensures r != [] <==> sfx == "boom" || sfx == "whoosh" || sfx == "blast" || sfx == "glitch"
    ensures r != [] ==> IsSource(r[0])
  {
    if sfx == "boom" then [Oscillator, Gain]
    else if sfx == "whoosh" then [BufferSource, BiquadFilter, Gain]
    else if sfx == "blast" then [Oscillator, Gain, Oscillator, Gain, BiquadFilter]
    else if sfx == "glitch" then GlitchKinds(8)
    else []
  }

  /** `if (!type || !audioCtx) return;` */
  predicate SfxGuarded(sfx: Option<string>, audioCtx: Option<nat>) {
    sfx == None || sfx == Some("") || audioCtx == None
  }

  // ---------------------------------------------------------------------------
  // Properties of the specification

  /** Creating one more node extends the creation log by that node. */
  lemma CreatedSnoc(base: nat, kinds: seq<NodeKind>, kind: NodeKind)
    ensures Created(base, kinds + [kind]) == Created(base, kinds) + [Create(Node(base + |kinds|, kind))]
  {
    var l, r := Created(base, kinds + [kind]), Created(base, kinds) + [Create(Node(base + |kinds|, kind))];
    assert |l| == |r|;
    forall i | 0 <= i < |l|
      ensures l[i] == r[i]
    {
      if i < |kinds| {
        assert (kinds + [kind])[i] == kinds[i];
      }
    }
  }

  /**
    After `playAmbient` the registry holds exactly four sources and four
    gains, all of them nodes that call created, distinct, and numbered from
    `base` on, so none of them is a node tracked before it.
  */
  lemma AmbientRegistryShape(base: nat)
    ensures |AmbientSources(base)| == 4 && |AmbientGains(base)| == 4
    ensures forall n :: n in AmbientSources(base) ==> IsSource(n.kind) && Create(n) in Created(base, AmbientKinds)
    ensures forall n :: n in AmbientGains(base) ==> n.kind == Gain && Create(n) in Created(base, AmbientKinds)
    ensures forall n :: n in AmbientSources(base) + AmbientGains(base) ==> base <= n.id < base + |AmbientKinds|
    ensures forall i, j :: 0 <= i < j < 8 ==> (AmbientSources(base) + AmbientGains(base))[i] != (AmbientSources(base) + AmbientGains(base))[j]
  {
    var c := Created(base, AmbientKinds);
    assert Create(Node(base + 1, Oscillator)) == c[1] && Create(Node(base + 2, Oscillator)) == c[2];
    assert Create(Node(base + 4, Oscillator)) == c[4] && Create(Node(base + 6, Oscillator)) == c[6];
    assert Create(Node(base, Gain)) == c[0] && Create(Node(base + 3, Gain)) == c[3];
    assert Create(Node(base + 7, Gain)) == c[7] && Create(Node(base + 8, Gain)) == c[8];
  }

  /** The creations of the ambient bed, written out. */
  lemma AmbientCreated(base: nat)
    ensures Created(base, AmbientKinds) ==
      [Create(Node(base, Gain)), Create(Node(base + 1, Oscillator)), Create(Node(base + 2, Oscillator)),
       Create(Node(base + 3, Gain)), Create(Node(base + 4, Oscillator)), Create(Node(base + 5, BiquadFilter)),
       Create(Node(base + 6, Oscillator)), Create(Node(base + 7, Gain)), Create(Node(base + 8, Gain))]
  {
  }

  /** One more glitch pair adds an oscillator and a gain with the next two numbers. */
  lemma GlitchStep(base: nat, n: nat)
    ensures Created(base, GlitchKinds(n + 1)) ==
              Created(base, GlitchKinds(n)) + [Create(Node(base + 2 * n, Oscillator)), Create(Node(base + 2 * n + 1, Gain))]
  {
    GlitchPairs(n);
    CreatedSnoc(base, GlitchKinds(n), Oscillator);
    CreatedSnoc(base, GlitchKinds(n) + [Oscillator], Gain);
    assert GlitchKinds(n + 1) == GlitchKinds(n) + [Oscillator] + [Gain];
  }

  /** `n` glitch pairs are `2n` nodes alternating oscillator and gain. */
  lemma {:induction false} GlitchPairs(n: nat)
    ensures |GlitchKinds(n)| == 2 * n
    ensures forall i :: 0 <= i < n ==> GlitchKinds(n)[2 * i] == Oscillator && GlitchKinds(n)[2 * i + 1] == Gain
  {
    if n > 0 {
      GlitchPairs(n - 1);
    }
  }

  /**
    The `glitch` cue creates exactly 8 oscillator/gain pairs; a label outside
    the four known cues, `'ambient'` among them, creates nothing.
  */
  lemma SfxDispatch(sfx: string)
    ensures |SfxKinds("glitch")| == 16
    ensures forall i :: 0 <= i < 8 ==> SfxKinds("glitch")[2 * i] == Oscillator && SfxKinds("glitch")[2 * i + 1] == Gain
    ensures sfx != "boom" && sfx != "whoosh" && sfx != "blast" && sfx != "glitch" ==> SfxKinds(sfx) == []
    ensures SfxKinds("ambient") == []
  {
    GlitchPairs(8);
  }

  // ---------------------------------------------------------------------------
  // The module-level state

  class AudioState {
    var audioCtx: Option<nat>
    var contextsCreated: nat
    var activeNodes: seq<Node>
    var activeGainNodes: seq<Node>
    /** Serial number of the next node created. */
    var nextId: nat
    var effects: seq<AudioEffect>

    /** Tracked sources are sources, tracked gains are gains, all already created. */
    ghost predicate Valid()
      reads this
    {
      && (forall n :: n in activeNodes ==> n.id < nextId && IsSource(n.kind))
      && (forall n :: n in activeGainNodes ==> n.id < nextId && n.kind == Gain)
    }

    /** Module load: no context, nothing tracked. */
    constructor ()
      ensures Valid()
      ensures audioCtx == None && activeNodes == [] && activeGainNodes == [] && effects == []
    {
      audioCtx, contextsCreated := None, 0;
      activeNodes, activeGainNodes := [], [];
      nextId, effects := 0, [];
    }

    /** `initAudio()`: create a context only when none exists. */
    method InitAudio(hasContextClass: bool)
      requires Valid()
      modifies this
      ensures Valid()
      ensures old(audioCtx).Some? ==> audioCtx == old(audioCtx) && contextsCreated == old(contextsCreated)
      ensures old(audioCtx).None? ==> audioCtx == (if hasContextClass then Some(old(contextsCreated)) else None)
      ensures activeNodes == old(activeNodes) && activeGainNodes == old(activeGainNodes)
      ensures nextId == old(nextId) && effects == old(effects)
    {
      if audioCtx.None? && hasContextClass {
        audioCtx := Some(contextsCreated);
        contextsCreated := contextsCreated + 1;
      }
    }

    /** `audioCtx.createX()`: a new node with the next serial number. */
    method CreateNode(kind: NodeKind) returns (n: Node)
      modifies this`nextId, this`effects
      ensures n == Node(old(nextId), kind) && nextId == old(nextId) + 1
      ensures effects == old(effects) + [Create(n)]
    {
      n := Node(nextId, kind);
      nextId := nextId + 1;
      effects := effects + [Create(n)];
    }

    /** `stopAmbient()`: stop every tracked source, disconnect every tracked gain, forget both. */
    method StopAmbient()
      requires Valid()
      modifies this`activeNodes, this`activeGainNodes, this`effects
      ensures Valid()
      ensures activeNodes == [] && activeGainNodes == []
      ensures effects == old(effects) + StopAll(old(activeNodes)) + DisconnectAll(old(activeGainNodes))
      ensures old(activeNodes) == [] && old(activeGainNodes) == [] ==> effects == old(effects)
    {
      var i := 0;
      while i < |activeNodes|
        invariant 0 <= i <= |activeNodes|
        invariant activeNodes == old(activeNodes) && activeGainNodes == old(activeGainNodes)
        invariant effects == old(effects) + StopAll(activeNodes[..i])
      {
        assert activeNodes[..i + 1][..i] == activeNodes[..i];
        effects := effects + [Stop(activeNodes[i])];
        i := i + 1;
      }
      assert activeNodes[..i] == activeNodes;
      activeNodes := [];

      var j := 0;
      while j < |activeGainNodes|
        invariant 0 <= j <= |activeGainNodes|
        invariant activeNodes == [] && activeGainNodes == old(activeGainNodes)
        invariant effects == old(effects) + StopAll(old(activeNodes)) + DisconnectAll(activeGainNodes[..j])
      {
        assert activeGainNodes[..j + 1][..j] == activeGainNodes[..j];
        effects := effects + [Disconnect(activeGainNodes[j])];
        j := j + 1;
      }
      assert activeGainNodes[..j] == activeGainNodes;
      activeGainNodes := [];
    }

    /**
      `playAmbient()`: obtain a context or give up; otherwise clear the
      previous bed and track the new bed's four sources and four gains.
    */
    method PlayAmbient(hasContextClass: bool)
      requires Valid()
      modifies this
      ensures Valid()
      ensures audioCtx.Some? <==> old(audioCtx).Some? || hasContextClass
      ensures old(audioCtx).Some? ==> audioCtx == old(audioCtx)
      ensures audioCtx.None? ==>
                && activeNodes == old(activeNodes) && activeGainNodes == old(activeGainNodes)
                && nextId == old(nextId) && effects == old(effects)
      ensures audioCtx.Some? ==>
                && activeNodes == AmbientSources(old(nextId))
                && activeGainNodes == AmbientGains(old(nextId))
                && nextId == old(nextId) + |AmbientKinds|
                && (forall n :: n in old(activeNodes) + old(activeGainNodes) ==> n !in activeNodes + activeGainNodes)
                && effects == old(effects) + StopAll(old(activeNodes)) + DisconnectAll(old(activeGainNodes))
                                           + Created(old(nextId), AmbientKinds)
    {
      if audioCtx.None? {
        InitAudio(hasContextClass);
      }
      if audioCtx.None? {
        return;
      }

      StopAmbient();
      BuildAmbientBed();
    }

    /** The body of `playAmbient` after `stopAmbient()`: create the bed and track its nodes. */
    method BuildAmbientBed()
      requires activeNodes == [] && activeGainNodes == []
      modifies this`activeNodes, this`activeGainNodes, this`nextId, this`effects
      ensures activeNodes == AmbientSources(old(nextId))
      ensures activeGainNodes == AmbientGains(old(nextId))
      ensures nextId == old(nextId) + |AmbientKinds|
      ensures effects == old(effects) + Created(old(nextId), AmbientKinds)
    {
      var masterGain := CreateNode(Gain);
      activeGainNodes := activeGainNodes + [masterGain];

      var osc1 := CreateNode(Oscillator);
      var lfo1 := CreateNode(Oscillator);
      var lfo1Gain := CreateNode(Gain);
      activeNodes := activeNodes + [osc1, lfo1];
      activeGainNodes := activeGainNodes + [lfo1Gain];

      var osc2 := CreateNode(Oscillator);
      var filter := CreateNode(BiquadFilter);
      var lfo2 := CreateNode(Oscillator);
      var lfo2Gain := CreateNode(Gain);
      var osc2Gain := CreateNode(Gain);
      activeNodes := activeNodes + [osc2, lfo2];
      activeGainNodes := activeGainNodes + [lfo2Gain, osc2Gain];

      AmbientCreated(old(nextId));
    }

    /**
      `playSfx(type)`: past the guard, create the nodes of a known cue; the
      ambient registry and the context are never touched.
    */
    method PlaySfx(sfx: Option<string>)
      requires Valid()
      modifies this`nextId, this`effects
      ensures Valid()
      ensures SfxGuarded(sfx, audioCtx) ==> effects == old(effects) && nextId == old(nextId)
      ensures !SfxGuarded(sfx, audioCtx) ==>
                && effects == old(effects) + Created(old(nextId), SfxKinds(sfx.value))
                && nextId == old(nextId) + |SfxKinds(sfx.value)|
    {
      if sfx.None? || sfx.value == "" || audioCtx.None? {
        return;
      }
      var cue := sfx.value;
      if cue == "boom" {
        Boom();
      } else if cue == "whoosh" {
        Whoosh();
      } else if cue == "blast" {
        Blast();
      } else if cue == "glitch" {
        GlitchBurst();
      }
    }

    /** `case 'boom'`: one oscillator into one gain. */
    method Boom()
      modifies this`nextId, this`effects
      ensures nextId == old(nextId) + 2
      ensures effects == old(effects) + Created(old(nextId), SfxKinds("boom"))
    {
      var osc := CreateNode(Oscillator);
      var gain := CreateNode(Gain);
    }

    /** `case 'whoosh'`: a noise source through a band-pass filter into a gain. */
    method Whoosh()
      modifies this`nextId, this`effects
      ensures nextId == old(nextId) + 3
      ensures effects == old(effects) + Created(old(nextId), SfxKinds("whoosh"))
    {
      var noise := CreateNode(BufferSource);
      var filter := CreateNode(BiquadFilter);
      var gain := CreateNode(Gain);
    }

    /** `case 'blast'`: a low punch and a filtered square-wave crunch. */
    method Blast()
      modifies this`nextId, this`effects
      ensures nextId == old(nextId) + 5
      ensures effects == old(effects) + Created(old(nextId), SfxKinds("blast"))
    {
      var oscLow := CreateNode(Oscillator);
      var gainLow := CreateNode(Gain);
      var oscMid := CreateNode(Oscillator);
      var gainMid := CreateNode(Gain);
      var filter := CreateNode(BiquadFilter);
    }

    /** `case 'glitch'`: eight short oscillator/gain bursts. */
    method GlitchBurst()
      modifies this`nextId, this`effects
      ensures nextId == old(nextId) + 16
      ensures effects == old(effects) + Created(old(nextId), GlitchKinds(8))
    {
      var b := nextId;
      var i := 0;
      while i < 8
        invariant 0 <= i <= 8
        invariant nextId == b + 2 * i
        invariant effects == old(effects) + Created(b, GlitchKinds(i))
      {
        GlitchStep(b, i);
        var osc := CreateNode(Oscillator);
        var gain := CreateNode(Gain);
        i := i + 1;
      }
    }
  }

  /** Two beds in a row and two stops in a row, as a caller sees them. */
  method AmbientScenario()
  {
    var audio := new AudioState();
    audio.PlayAmbient(true);
    var first := audio.activeNodes;
    audio.PlayAmbient(true);
    assert |audio.activeNodes| == 4 && |audio.activeGainNodes| == 4;
    assert forall n :: n in first ==> n !in audio.activeNodes;
    audio.StopAmbient();
    var afterStop := audio.effects;
    audio.StopAmbient();
    assert audio.effects == afterStop;
    assert audio.activeNodes == [] && audio.activeGainNodes == [];
  }
}
