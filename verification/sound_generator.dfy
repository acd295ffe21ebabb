/**
 * The procedural sound generator (`SoundGenerator` in useSoundManager.js),
 * reduced to the state that decides what is audible: whether the audio
 * context exists, the master gain, the registry `activeNodes` of named
 * looping sounds, and the `isActive` flags of bird-song loops. Node graphs
 * are replaced by the parameter values they are built with.
 */
module SoundGenerator {
  import opened Wrappers

  predicate IsDraw(r: real) {
    0.0 <= r < 1.0
  }

  /** The registry keys. */
  datatype Key = Rain | Wind | Birds

  /**
   * A registered sound. A bird voice names its scheduling loop; the loop
   * keeps running (and singing) for as long as that id is in `liveLoops`.
   */
  datatype Voice = RainVoice(intensity: real) | WindVoice(intensity: real) | BirdVoice(loop: nat)

  function KeyOf(v: Voice): (k: Key)
    ensures k == Rain <==> v.RainVoice?
    ensures k == Wind <==> v.WindVoice?
    ensures k == Birds <==> v.BirdVoice?
  {
    match v
    case RainVoice(_) => Rain
    case WindVoice(_) => Wind
    case BirdVoice(_) => Birds
  }

  // ---------------------------------------------------------------- sound parameters

  const FadeInSeconds: real := 2.0
  const FadeOutSeconds: real := 0.5
  const NoiseStopDelayMs: nat := 600
  const DefaultMasterGain: real := 0.5

  /** Filter chain and loudness of a rain voice: bandpass, then lowpass, ramped up over two seconds. */
  datatype RainGraph = RainGraph(bandpassHz: real, bandpassQ: real, lowpassHz: real, targetGain: real, fadeInSeconds: real)

  function RainGraphFor(intensity: real): (g: RainGraph)
    ensures g.lowpassHz == g.bandpassHz + 2000.0
    ensures g.targetGain * 5000.0 == g.bandpassHz - 1000.0
    ensures g.targetGain * 10.0 == intensity * 4.0
    ensures 0.0 <= intensity <= 1.0 ==> 1000.0 <= g.bandpassHz <= 3000.0 && 0.0 <= g.targetGain <= 0.4
    ensures g.bandpassQ == 0.5 && g.fadeInSeconds == FadeInSeconds
  {
    RainGraph(1000.0 + intensity * 2000.0, 0.5, 3000.0 + intensity * 2000.0, intensity * 0.4, FadeInSeconds)
  }

  /** A wind voice: a 400 Hz bandpass whose centre an LFO at 0.1 Hz swings by 200 Hz either way. */
  datatype WindGraph = WindGraph(bandpassHz: real, bandpassQ: real, lfoHz: real, lfoDepthHz: real, targetGain: real, fadeInSeconds: real)

  function WindGraphFor(intensity: real): (g: WindGraph)
    ensures g.bandpassHz - g.lfoDepthHz == 200.0 && g.bandpassHz + g.lfoDepthHz == 600.0
    ensures g.targetGain * 10.0 == intensity * 3.0
    ensures 0.0 <= intensity <= 1.0 ==> 0.0 <= g.targetGain <= 0.3
    ensures g.fadeInSeconds == FadeInSeconds
  {
    WindGraph(400.0, 1.0, 0.1, 200.0, intensity * 0.3, FadeInSeconds)
  }

  /** Louder intensities give brighter, louder rain and louder wind. */
  lemma ParametersMonotone(i: real, j: real)
    requires i <= j
    ensures RainGraphFor(i).bandpassHz <= RainGraphFor(j).bandpassHz
    ensures RainGraphFor(i).lowpassHz <= RainGraphFor(j).lowpassHz
    ensures RainGraphFor(i).targetGain <= RainGraphFor(j).targetGain
    ensures WindGraphFor(i).targetGain <= WindGraphFor(j).targetGain
  {
  }

  /** The level a looping voice fades in to before the master gain; bird loops have none of their own. */
  function TargetGain(v: Voice): (gain: real)
    ensures v.RainVoice? ==> gain == RainGraphFor(v.intensity).targetGain
    ensures v.WindVoice? ==> gain == WindGraphFor(v.intensity).targetGain
    ensures v.BirdVoice? ==> gain == 0.0
  {
    match v
    case RainVoice(i) => RainGraphFor(i).targetGain
    case WindVoice(i) => WindGraphFor(i).targetGain
    case BirdVoice(_) => 0.0
  }

  /** What `stopSound` schedules for a voice it removes. */
  datatype Teardown = Teardown(fadeToZeroSeconds: Option<real>, stopNoiseAfterMs: Option<nat>, stopsLfo: bool, endsLoop: Option<nat>)

  function TeardownOf(v: Voice): (t: Teardown)
    ensures t.fadeToZeroSeconds.Some? <==> v.RainVoice? || v.WindVoice?
    ensures t.fadeToZeroSeconds.Some? ==>
      t.stopNoiseAfterMs.Some? && t.fadeToZeroSeconds.value * 1000.0 < t.stopNoiseAfterMs.value as real
    ensures t.stopNoiseAfterMs.Some? ==> t.fadeToZeroSeconds.Some?
    ensures t.stopsLfo <==> v.WindVoice?
    ensures t.endsLoop.Some? <==> v.BirdVoice?
    ensures v.BirdVoice? ==> t.endsLoop == Some(v.loop)
  {
    match v
    case RainVoice(_) => Teardown(Some(FadeOutSeconds), Some(NoiseStopDelayMs), false, None)
    case WindVoice(_) => Teardown(Some(FadeOutSeconds), Some(NoiseStopDelayMs), true, None)
    case BirdVoice(l) => Teardown(None, None, false, Some(l))
  }

  // ---------------------------------------------------------------- generator state

  /**
   * `masterGain` is `None` until an audio context exists; `liveLoops` holds the
   * bird loops whose `isActive` flag is still set; `retired` lists, in order,
   * every voice `stopSound` has taken out of the registry.
   */
  datatype Generator = Generator(
    masterGain: Option<real>, registry: map<Key, Voice>, liveLoops: set<nat>, nextLoop: nat, retired: seq<Voice>)

  predicate Ready(g: Generator) {
    g.masterGain.Some?
  }

  /** The loop that the registry's bird voice owns, if any. */
  function RegisteredLoops(registry: map<Key, Voice>): set<nat> {
    if Birds in registry && registry[Birds].BirdVoice? then {registry[Birds].loop} else {}
  }

  /**
   * The registry invariant: every entry sits under its own key (so there is at
   * most one voice per key), the only live bird loop is the registered one,
   * loop ids are below the next id to hand out, and nothing is registered
   * before the context exists.
   */
  predicate Valid(g: Generator) {
    && (forall k :: k in g.registry ==> KeyOf(g.registry[k]) == k)
    && g.liveLoops == RegisteredLoops(g.registry)
    && (forall l :: l in g.liveLoops ==> l < g.nextLoop)
    && (!Ready(g) ==> g.registry == map[])
  }

  /** `new SoundGenerator()`. */
  function Fresh(): (g: Generator)
    ensures Valid(g) && !Ready(g) && g.registry == map[]
  {
    Generator(None, map[], {}, 0, [])
  }

  /**
   * `init()`: idempotent; when the platform offers audio (`available`) the
   * first call creates the context and sets the master gain to 0.5.
   */
  function Init(g: Generator, available: bool): (r: Generator)
    ensures Ready(g) ==> r == g
    ensures Ready(r) <==> Ready(g) || available
    ensures !Ready(g) && available ==> r.masterGain == Some(DefaultMasterGain)
    ensures r.registry == g.registry && r.liveLoops == g.liveLoops && r.nextLoop == g.nextLoop && r.retired == g.retired
    ensures Valid(g) ==> Valid(r)
  {
    if Ready(g) || !available then g else g.(masterGain := Some(DefaultMasterGain))
  }

  /** `stopSound(key)`: a no-op for an absent key; otherwise retires exactly that entry. */
  function StopSound(g: Generator, k: Key): (r: Generator)
    ensures k !in g.registry ==> r == g
    ensures k !in r.registry
    ensures forall k' :: k' != k ==> (k' in r.registry <==> k' in g.registry)
    ensures forall k' :: k' != k && k' in g.registry ==> r.registry[k'] == g.registry[k']
    ensures k in g.registry ==> r.retired == g.retired + [g.registry[k]]
    ensures k in g.registry && g.registry[k].BirdVoice? ==> r.liveLoops == g.liveLoops - {g.registry[k].loop}
    ensures r.masterGain == g.masterGain && r.nextLoop == g.nextLoop
    ensures Valid(g) ==> Valid(r)
  {
    if k !in g.registry then g
    else
      var v := g.registry[k];
      g.(registry := g.registry - {k},
         liveLoops := if v.BirdVoice? then g.liveLoops - {v.loop} else g.liveLoops,
         retired := g.retired + [v])
  }

  function KeySet(ks: seq<Key>): set<Key> {
    set i | 0 <= i < |ks| :: ks[i]
  }

  /** `stopSound` for each key in turn. */
  function StopKeys(g: Generator, ks: seq<Key>): (r: Generator)
    ensures forall k :: k in r.registry <==> k in g.registry && k !in KeySet(ks)
    ensures forall k :: k in r.registry ==> r.registry[k] == g.registry[k]
    ensures forall k :: k in g.registry && k in KeySet(ks) ==> g.registry[k] in r.retired
    ensures r.masterGain == g.masterGain && r.nextLoop == g.nextLoop
    ensures |g.retired| <= |r.retired| && r.retired[..|g.retired|] == g.retired
    ensures Valid(g) ==> Valid(r)
    decreases |ks|
  {
    if |ks| == 0 then g
    else
      var g1 := StopSound(g, ks[0]);
      var r := StopKeys(g1, ks[1..]);
      assert KeySet(ks) == {ks[0]} + KeySet(ks[1..]);
      assert r.retired[..|g.retired|] == g.retired by {
        assert r.retired[..|g1.retired|] == g1.retired;
        assert g1.retired[..|g.retired|] == g.retired;
      }
      assert ks[0] in g.registry ==> g.registry[ks[0]] in r.retired by {
        if ks[0] in g.registry {
          assert g1.retired[|g.retired|] == g.registry[ks[0]];
          assert r.retired[|g.retired|] == g1.retired[|g.retired|];
        }
      }
      r
  }

  const AllKeys: seq<Key> := [Rain, Wind, Birds]

  /** `stopAll()`: every registered voice is retired and the registry is left empty. */
  function StopAll(g: Generator): (r: Generator)
    ensures r.registry == map[]
    ensures forall k :: k in g.registry ==> g.registry[k] in r.retired
    ensures Valid(g) ==> Valid(r) && r.liveLoops == {}
    ensures r.masterGain == g.masterGain && r.nextLoop == g.nextLoop
  {
    var r := StopKeys(g, AllKeys);
    assert forall k: Key :: k in KeySet(AllKeys) by {
      assert AllKeys[0] == Rain && AllKeys[1] == Wind && AllKeys[2] == Birds;
    }
    r
  }

  /** Stops whatever is registered under the voice's key, then registers the voice. */
  function Replace(g: Generator, v: Voice): (r: Generator)
    ensures r.registry == StopSound(g, KeyOf(v)).registry[KeyOf(v) := v]
    ensures KeyOf(v) in g.registry ==> r.retired == g.retired + [g.registry[KeyOf(v)]]
    ensures KeyOf(v) !in g.registry ==> r.retired == g.retired
    ensures r.masterGain == g.masterGain && r.nextLoop == g.nextLoop
    ensures Valid(g) && !v.BirdVoice? ==> r.liveLoops == g.liveLoops
    ensures Valid(g) && v.BirdVoice? ==> r.liveLoops == {v.loop}
  {
    var s := StopSound(g, KeyOf(v));
    var loops := if v.BirdVoice? then s.liveLoops + {v.loop} else s.liveLoops;
    s.(registry := s.registry[KeyOf(v) := v], liveLoops := loops)
  }

  /** The shared contract of the three `create…Sound` registrations. */
  predicate Registers(g: Generator, available: bool, v: Voice, r: Generator) {
    var k := KeyOf(v);
    && (Ready(r) <==> Ready(g) || available)
    && (!Ready(r) ==> r == g)
    && (Ready(r) ==> k in r.registry && r.registry[k] == v)
    && (forall k' :: k' != k ==> (k' in r.registry <==> k' in g.registry))
    && (forall k' :: k' != k && k' in g.registry ==> r.registry[k'] == g.registry[k'])
    && (Ready(r) && k in g.registry ==> r.retired == g.retired + [g.registry[k]])
    && (k !in g.registry ==> r.retired == g.retired)
  }

  /** `createRainSound(intensity)`. */
  function CreateRain(g: Generator, available: bool, intensity: real): (r: Generator)
    ensures Registers(g, available, RainVoice(intensity), r)
    ensures Valid(g) ==> r.liveLoops == g.liveLoops
    ensures r.nextLoop == g.nextLoop
    ensures Valid(g) ==> Valid(r)
  {
    var g1 := Init(g, available);
    if !Ready(g1) then g1 else Replace(g1, RainVoice(intensity))
  }

  /** `createWindSound(intensity)`. */
  function CreateWind(g: Generator, available: bool, intensity: real): (r: Generator)
    ensures Registers(g, available, WindVoice(intensity), r)
    ensures Valid(g) ==> r.liveLoops == g.liveLoops
    ensures r.nextLoop == g.nextLoop
    ensures Valid(g) ==> Valid(r)
  {
    var g1 := Init(g, available);
    if !Ready(g1) then g1 else Replace(g1, WindVoice(intensity))
  }

  /**
   * `createBirdSounds()`: the previous bird loop (if any) is deactivated and a
   * new loop with a fresh id becomes the only live one.
   */
  function CreateBirds(g: Generator, available: bool): (r: Generator)
    ensures Registers(g, available, BirdVoice(g.nextLoop), r)
    ensures Valid(g) && Ready(r) ==> r.liveLoops == {g.nextLoop} && r.nextLoop == g.nextLoop + 1
    ensures Valid(g) ==> Valid(r)
  {
    var g1 := Init(g, available);
    if !Ready(g1) then g1 else Replace(g1, BirdVoice(g1.nextLoop)).(nextLoop := g1.nextLoop + 1)
  }

  /** `setMasterVolume(value)`: stored unclamped once a context exists, ignored before. */
  function SetMasterVolume(g: Generator, value: real): (r: Generator)
    ensures Ready(g) ==> r.masterGain == Some(value)
    ensures !Ready(g) ==> r == g
    ensures r.registry == g.registry && r.liveLoops == g.liveLoops && r.retired == g.retired
    ensures Valid(g) ==> Valid(r)
  {
    if Ready(g) then g.(masterGain := Some(value)) else g
  }

  /** The loudness a looping voice settles at: its own target scaled by the master gain. */
  function EffectiveGain(g: Generator, k: Key): (gain: real)
    requires k in g.registry && Ready(g)
    ensures g.masterGain.value >= 0.0 && TargetGain(g.registry[k]) >= 0.0 ==> gain >= 0.0
    ensures g.masterGain.value == 0.0 ==> gain == 0.0
  {
    TargetGain(g.registry[k]) * g.masterGain.value
  }

  /** A volume change rescales every registered voice by the same factor, without restarting any. */
  lemma VolumeScalesAllVoices(g: Generator, value: real, k: Key)
    requires Ready(g) && k in g.registry
    ensures k in SetMasterVolume(g, value).registry
    ensures SetMasterVolume(g, value).registry[k] == g.registry[k]
    ensures EffectiveGain(SetMasterVolume(g, value), k) == TargetGain(g.registry[k]) * value
  {
  }

  // ---------------------------------------------------------------- one-shots and bird timing

  /** The thunder one-shot: a sawtooth rumble gliding 50 -> 30 Hz plus a noise burst, both through a 150 Hz lowpass. */
  datatype ThunderShot = ThunderShot(
    rumbleStartHz: real, rumbleEndHz: real, lowpassHz: real, envelope: seq<(real, real)>, stopAfterSeconds: real)

  /** `createThunderSound()`: gain 0 -> 0.8 in 50 ms, decaying to 0.01 at 3 s, when both sources stop. */
  const Thunder: ThunderShot :=
    ThunderShot(50.0, 30.0, 150.0, [(0.0, 0.0), (0.05, 0.8), (3.0, 0.01)], 3.0)

  /** Envelope points are in time order, peak at 0.8, and the last one coincides with the scheduled stop. */
  lemma ThunderShape()
    ensures var e := Thunder.envelope;
      && |e| == 3 && e[0] == (0.0, 0.0)
      && (forall i, j :: 0 <= i < j < |e| ==> e[i].0 < e[j].0)
      && (forall i :: 0 <= i < |e| ==> e[i].1 <= 0.8)
      && e[|e| - 1].0 == Thunder.stopAfterSeconds == 3.0
  {
  }

  /** A one-shot is never registered: the registry and the bird loops are untouched. */
  function CreateThunder(g: Generator, available: bool): (out: (Generator, Option<ThunderShot>))
    ensures out.0.registry == g.registry && out.0.liveLoops == g.liveLoops && out.0.retired == g.retired
    ensures out.1.Some? <==> Ready(g) || available
    ensures out.1.Some? ==> out.1.value == Thunder
    ensures Valid(g) ==> Valid(out.0)
  {
    var g1 := Init(g, available);
    (g1, if Ready(g1) then Some(Thunder) else None)
  }

  /** One bird chirp: `atMs` after the song starts, a sine at `baseHz` with a fifth above. */
  datatype Chirp = Chirp(atMs: real, baseHz: real)

  /** The shape of every chirp: a sine pair through a 3 kHz lowpass, under a soft envelope, stopped at 0.4 s. */
  datatype ChirpShape = ChirpShape(
    harmonicRatio: real, sweep: seq<(real, real)>, lowpassHz: real, envelope: seq<(real, real)>, stopAfterSeconds: real)

  /** Pitch rises to 1.3x base at 0.1 s, falls to 0.9x at 0.2 s; gain peaks at 0.03 after 50 ms. */
  const ChirpSound: ChirpShape := ChirpShape(
    1.5, [(0.1, 1.3), (0.2, 0.9)], 3000.0, [(0.0, 0.0), (0.05, 0.03), (0.15, 0.02), (0.35, 0.001)], 0.4)

  /** Envelope points are in time order and the envelope has decayed before the oscillators stop. */
  lemma ChirpShapeOrdered()
    ensures var e := ChirpSound.envelope;
      && (forall i, j :: 0 <= i < j < |e| ==> e[i].0 < e[j].0)
      && e[|e| - 1].0 < ChirpSound.stopAfterSeconds
      && (forall i :: 0 <= i < |e| ==> e[i].1 <= 0.03)
  {
  }

  /** `2 + Math.floor(Math.random() * 3)` notes. */
  function NoteCount(r: real): (n: nat)
    requires IsDraw(r)
    ensures 2 <= n <= 4
  {
    2 + (r * 3.0).Floor
  }

  /** Note `i` of a song from its gap draw and pitch draw. */
  function MakeChirp(i: nat, gap: real, pitch: real): (c: Chirp)
    requires IsDraw(gap) && IsDraw(pitch)
    ensures i as real * 80.0 <= c.atMs <= i as real * 140.0
    ensures 1200.0 <= c.baseHz < 2000.0
  {
    var x := i as real;
    var g := 80.0 + gap * 60.0;
    assert x * 80.0 <= x * g <= x * 140.0;
    Chirp(x * g, 1200.0 + pitch * 800.0)
  }

  /** `createBirdSong()`: note `i` starts at `i * (80 + 60 r)` ms with base frequency `1200 + 800 r'`. */
  function Song(rCount: real, gaps: seq<real>, pitches: seq<real>): (song: seq<Chirp>)
    requires IsDraw(rCount) && |gaps| >= 4 && |pitches| >= 4
    requires forall i :: 0 <= i < 4 ==> IsDraw(gaps[i]) && IsDraw(pitches[i])
    ensures 2 <= |song| <= 4
    ensures song[0].atMs == 0.0
    ensures forall i :: 0 <= i < |song| ==> i as real * 80.0 <= song[i].atMs <= i as real * 140.0
    ensures forall i :: 0 <= i < |song| ==> 1200.0 <= song[i].baseHz < 2000.0
  {
    var n := NoteCount(rCount);
    seq(n, i requires 0 <= i < n => MakeChirp(i, gaps[i], pitches[i]))
  }

  const FirstSongDelayMs: real := 2000.0

  /** The delay before the next chirp timer: 3 to 8 seconds. */
  function NextChirpDelay(r: real): (ms: real)
    requires IsDraw(r)
    ensures 3000.0 <= ms < 8000.0
  {
    3000.0 + r * 5000.0
  }

  /** What a bird timer does when it fires: whether a song is sung, and the delay of the next timer, if any. */
  datatype BirdStep = BirdStep(sings: bool, next: Option<real>)

  /** The 2-second opening timer: a live loop always sings once and starts its chirp timers. */
  function FirstSong(active: bool, rDelay: real): (s: BirdStep)
    requires IsDraw(rDelay)
    ensures s.sings <==> active
    ensures s.next.Some? <==> active
    ensures s.next.Some? ==> 3000.0 <= s.next.value < 8000.0
  {
    if active then BirdStep(true, Some(NextChirpDelay(rDelay))) else BirdStep(false, None)
  }

  /** A chirp timer: sings when the loop is live and its draw exceeds 0.3; only a live loop reschedules. */
  function ChirpTimer(active: bool, rSong: real, rDelay: real): (s: BirdStep)
    requires IsDraw(rSong) && IsDraw(rDelay)
    ensures s.sings <==> active && rSong > 0.3
    ensures s.next.Some? <==> active
    ensures s.next.Some? ==> 3000.0 <= s.next.value < 8000.0
  {
    BirdStep(active && rSong > 0.3, if active then Some(NextChirpDelay(rDelay)) else None)
  }

  predicate AllDraws(rs: seq<real>) {
    forall i :: 0 <= i < |rs| ==> IsDraw(rs[i])
  }

  /**
   * When the timers of a live bird loop fire, measured from `start`: the
   * first at `start`, each later one a `NextChirpDelay` after the last.
   */
  function ChirpTimes(start: real, delays: seq<real>): (ts: seq<real>)
    requires AllDraws(delays)
    ensures |ts| == |delays| + 1 && ts[0] == start
    ensures forall i :: 0 <= i < |delays| ==> 3000.0 <= ts[i + 1] - ts[i] < 8000.0
    ensures forall i :: 0 <= i < |ts| ==> start + 3000.0 * i as real <= ts[i] < start + 8000.0 * i as real + 1.0
    decreases |delays|
  {
    [start] + if |delays| == 0 then [] else ChirpTimes(start + NextChirpDelay(delays[0]), delays[1..])
  }

  /**
   * The timeline of a bird loop from `createBirdSounds`: the opening song at
   * 2 s, then a chirp timer every 3 to 8 seconds while the loop is live.
   */
  function BirdTimeline(delays: seq<real>): (ts: seq<real>)
    requires AllDraws(delays)
    ensures |ts| == |delays| + 1 && ts[0] == FirstSongDelayMs
    ensures forall i :: 1 <= i < |ts| ==> FirstSongDelayMs + 3000.0 <= ts[i]
    ensures forall i :: 0 <= i < |delays| ==> 3000.0 <= ts[i + 1] - ts[i] < 8000.0
  {
    ChirpTimes(FirstSongDelayMs, delays)
  }
}
