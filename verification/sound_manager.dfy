/**
 * The `useSoundManager` hook: the enabled flag, `currentWeatherRef`,
 * `thunderIntervalRef` and the transitions behind `handleWeatherChange`,
 * `toggleSound`, `adjustVolume` and `resumeAudio`, plus the timers they
 * leave behind. Each transition is one sequential step; platform audio
 * support, random draws and timer firings are inputs.
 */
module SoundManager {
  import opened Wrappers
  import opened Weather
  import G = SoundGenerator

  /**
   * `thunderPeriod` is the period of the armed `setInterval` (if any);
   * `pendingStrikes` counts the one-second initial-thunder timeouts not yet
   * fired, which nothing cancels.
   */
  datatype Manager = Manager(
    gen: G.Generator, enabled: bool, volume: real, hookReady: bool,
    current: WeatherType, thunderPeriod: Option<real>, pendingStrikes: nat)

  /**
   * The hook invariant: the generator's registry invariant, and an armed
   * thunder interval only while sound is on and the current weather is a
   * thunderstorm.
   */
  predicate Inv(m: Manager) {
    && G.Valid(m.gen)
    && (m.thunderPeriod.Some? ==> m.enabled && m.current == Thunderstorm)
  }

  /** Mounting the hook: sound on, volume 0.5, current weather `'clear'`, nothing playing. */
  function Mount(): (m: Manager)
    ensures Inv(m) && m.enabled && m.current == Clear
    ensures m.gen.registry == map[] && m.thunderPeriod.None? && m.pendingStrikes == 0
  {
    Manager(G.Fresh(), true, 0.5, false, Clear, None, 0)
  }

  // ---------------------------------------------------------------- recipes

  /** One entry of a weather recipe. */
  datatype Sound = RainAt(intensity: real) | WindAt(intensity: real) | Birdsong

  function SoundKey(s: Sound): G.Key {
    match s
    case RainAt(_) => G.Rain
    case WindAt(_) => G.Wind
    case Birdsong => G.Birds
  }

  predicate DistinctKeys(rs: seq<Sound>) {
    forall i, j :: 0 <= i < j < |rs| ==> SoundKey(rs[i]) != SoundKey(rs[j])
  }

  /** The `switch` of `playWeatherSound`: which voices a category starts, and how loud. */
  function Recipe(t: WeatherType, windSpeed: real): (rs: seq<Sound>)
    ensures DistinctKeys(rs) && |rs| <= 2
    ensures Birdsong in rs <==> t == Clear || t == Tornado
    ensures (exists i :: RainAt(i) in rs) <==> t in {Rain, Drizzle, HeavyRain, Thunderstorm}
    ensures rs == [] <==> (t == Cloudy || t == PartlyCloudy) && windSpeed <= 5.0
    ensures forall i :: WindAt(i) in rs && (t == Cloudy || t == PartlyCloudy) ==> i * 30.0 == windSpeed
    ensures (exists i :: WindAt(i) in rs) <==>
      t in {HeavyRain, Thunderstorm, Snow, HeavySnow, Fog} || (t in {Cloudy, PartlyCloudy} && windSpeed > 5.0)
    ensures forall i :: RainAt(i) in rs ==> i == (if t == HeavyRain then 0.9 else if t == Thunderstorm then 0.8 else 0.5)
    ensures forall i :: WindAt(i) in rs ==>
      i == (if t == HeavyRain then 0.2 else if t == Thunderstorm then 0.3
            else if t == Snow || t == HeavySnow then 0.4 else if t == Fog then 0.1 else windSpeed / 30.0)
  {
    match t
    case Rain => [RainAt(0.5)]
    case Drizzle => [RainAt(0.5)]
    case HeavyRain => [RainAt(0.9), WindAt(0.2)]
    case Thunderstorm => [RainAt(0.8), WindAt(0.3)]
    case Snow => [WindAt(0.4)]
    case HeavySnow => [WindAt(0.4)]
    case Cloudy => if windSpeed > 5.0 then [WindAt(windSpeed / 30.0)] else []
    case PartlyCloudy => if windSpeed > 5.0 then [WindAt(windSpeed / 30.0)] else []
    case Fog => [WindAt(0.1)]
    case Clear => [Birdsong]
    case Tornado => [Birdsong]
  }

  /** The registered voice realises the recipe entry (any loop id for bird song). */
  predicate Realises(v: G.Voice, s: Sound) {
    match s
    case RainAt(i) => v == G.RainVoice(i)
    case WindAt(i) => v == G.WindVoice(i)
    case Birdsong => v.BirdVoice?
  }

  /** The registry holds exactly the recipe's voices. */
  predicate Plays(registry: map<G.Key, G.Voice>, rs: seq<Sound>) {
    && (forall k :: k in registry <==> exists i :: 0 <= i < |rs| && SoundKey(rs[i]) == k)
    && (forall i :: 0 <= i < |rs| ==> SoundKey(rs[i]) in registry && Realises(registry[SoundKey(rs[i])], rs[i]))
  }

  /** Starting one recipe entry with the matching `create…Sound`. */
  function Start(g: G.Generator, s: Sound, available: bool): (r: G.Generator)
    ensures G.Valid(g) ==> G.Valid(r)
    ensures G.Ready(r) <==> G.Ready(g) || available
    ensures !G.Ready(r) ==> r == g
    ensures G.Ready(r) ==> SoundKey(s) in r.registry && Realises(r.registry[SoundKey(s)], s)
    ensures forall k :: k != SoundKey(s) ==> (k in r.registry <==> k in g.registry)
    ensures forall k :: k != SoundKey(s) && k in g.registry ==> r.registry[k] == g.registry[k]
    ensures r.nextLoop >= g.nextLoop
    ensures G.Valid(g) ==> forall l :: l in r.liveLoops ==> l in g.liveLoops || l >= g.nextLoop
  {
    match s
    case RainAt(i) => G.CreateRain(g, available, i)
    case WindAt(i) => G.CreateWind(g, available, i)
    case Birdsong => G.CreateBirds(g, available)
  }

  function RecipeKeys(rs: seq<Sound>): set<G.Key> {
    set i | 0 <= i < |rs| :: SoundKey(rs[i])
  }

  /** Every entry of `rs` is realised under its key in `registry`. */
  predicate RealisesAll(registry: map<G.Key, G.Voice>, rs: seq<Sound>) {
    forall i :: 0 <= i < |rs| ==> SoundKey(rs[i]) in registry && Realises(registry[SoundKey(rs[i])], rs[i])
  }

  /** Keys outside `keys` are left as they were. */
  predicate KeepsOthers(g: G.Generator, r: G.Generator, keys: set<G.Key>) {
    forall k :: k !in keys ==> (k in r.registry <==> k in g.registry) && (k in g.registry ==> r.registry[k] == g.registry[k])
  }

  /** The recipe's entries started in order. */
  function StartAll(g: G.Generator, rs: seq<Sound>, available: bool): (r: G.Generator)
    requires DistinctKeys(rs)
    ensures G.Valid(g) ==> G.Valid(r)
    ensures !(G.Ready(g) || available) ==> r == g
    ensures G.Ready(g) ==> G.Ready(r)
    ensures G.Ready(g) || available ==> RealisesAll(r.registry, rs)
    ensures KeepsOthers(g, r, RecipeKeys(rs))
    ensures r.nextLoop >= g.nextLoop
    ensures G.Valid(g) ==> forall l :: l in r.liveLoops ==> l in g.liveLoops || l >= g.nextLoop
    decreases |rs|
  {
    if |rs| == 0 then g
    else
      var g1 := Start(g, rs[0], available);
      var r := StartAll(g1, rs[1..], available);
      assert RecipeKeys(rs) == {SoundKey(rs[0])} + RecipeKeys(rs[1..]);
      assert SoundKey(rs[0]) !in RecipeKeys(rs[1..]);
      assert G.Ready(g) || available ==> RealisesAll(r.registry, rs) by {
        if G.Ready(g) || available {
          forall i | 0 <= i < |rs|
            ensures SoundKey(rs[i]) in r.registry && Realises(r.registry[SoundKey(rs[i])], rs[i])
          {
            if i > 0 {
              assert rs[i] == rs[1..][i - 1];
            }
          }
        }
      }
      r
  }

  /** Starting a recipe on an empty registry leaves exactly the recipe playing. */
  lemma StartAllOnEmpty(g: G.Generator, rs: seq<Sound>, available: bool)
    requires DistinctKeys(rs) && g.registry == map[] && (G.Ready(g) || available)
    ensures Plays(StartAll(g, rs, available).registry, rs)
  {
    var r := StartAll(g, rs, available);
    forall k
      ensures k in r.registry <==> exists i :: 0 <= i < |rs| && SoundKey(rs[i]) == k
    {
      if k in RecipeKeys(rs) {
        var i :| 0 <= i < |rs| && SoundKey(rs[i]) == k;
      }
    }
  }

  /** Delay of the thunder interval, drawn once when it is armed: 5 to 15 seconds. */
  function ThunderPeriod(r: real): (ms: real)
    requires G.IsDraw(r)
    ensures 5000.0 <= ms < 15000.0
  {
    5000.0 + r * 10000.0
  }

  const InitialStrikeDelayMs: real := 1000.0

  /**
   * The two timers a thunderstorm arms, as (one-off strike delay, interval
   * period); none for other weather. The first strike always precedes the
   * first interval tick.
   */
  function ThunderTimers(t: WeatherType, r: real): (timers: Option<(real, real)>)
    requires G.IsDraw(r)
    ensures timers.Some? <==> t == Thunderstorm
    ensures timers.Some? ==> timers.value.0 == InitialStrikeDelayMs && timers.value.1 == ThunderPeriod(r)
    ensures timers.Some? ==> timers.value.0 < timers.value.1
  {
    if t == Thunderstorm then Some((InitialStrikeDelayMs, ThunderPeriod(r))) else None
  }

  // ---------------------------------------------------------------- transitions

  /**
   * `playWeatherSound(weatherType, windSpeed)`: ignored while disabled;
   * otherwise initialise, stop everything, disarm thunder, start the recipe,
   * arm thunder for a thunderstorm, and record the weather.
   */
  function Play(m: Manager, t: WeatherType, windSpeed: real, available: bool, rPeriod: real): (r: Manager)
    requires G.IsDraw(rPeriod)
    ensures !m.enabled ==> r == m
    ensures m.enabled ==> r.current == t && r.hookReady && r.enabled == m.enabled && r.volume == m.volume
    ensures m.enabled ==> (r.thunderPeriod.Some? <==> t == Thunderstorm)
    ensures m.enabled && r.thunderPeriod.Some? ==> 5000.0 <= r.thunderPeriod.value < 15000.0
    ensures m.enabled && r.thunderPeriod.Some? ==> InitialStrikeDelayMs < r.thunderPeriod.value
    ensures m.enabled ==> r.pendingStrikes == m.pendingStrikes + (if t == Thunderstorm then 1 else 0)
    ensures m.enabled && (G.Ready(m.gen) || available) ==> Plays(r.gen.registry, Recipe(t, windSpeed))
    ensures m.enabled && !(G.Ready(m.gen) || available) && G.Valid(m.gen) ==> r.gen.registry == map[]
    ensures m.enabled && G.Valid(m.gen) ==> forall l :: l in r.gen.liveLoops ==> l >= m.gen.nextLoop
    ensures Inv(m) ==> Inv(r)
  {
    if !m.enabled then m
    else
      var g0 := if m.hookReady then m.gen else G.Init(m.gen, available);
      var g1 := G.StopAll(g0);
      var rs := Recipe(t, windSpeed);
      var g2 := StartAll(g1, rs, available);
      assert G.Ready(m.gen) || available ==> Plays(g2.registry, rs) by {
        if G.Ready(m.gen) || available {
          StartAllOnEmpty(g1, rs, available);
        }
      }
      var timers := ThunderTimers(t, rPeriod);
      m.(gen := g2, hookReady := true, current := t,
         thunderPeriod := if timers.Some? then Some(timers.value.1) else None,
         pendingStrikes := m.pendingStrikes + if timers.Some? then 1 else 0)
  }

  /**
   * `handleWeatherChange(weatherType, isNight, windSpeed)`: clear skies at
   * night only stop the registered sounds; everything else plays.
   */
  function HandleWeatherChange(m: Manager, t: WeatherType, isNight: bool, windSpeed: real, available: bool, rPeriod: real): (r: Manager)
    requires G.IsDraw(rPeriod)
    ensures t == Clear && isNight ==>
      r.gen.registry == map[] && r.current == m.current && r.thunderPeriod == m.thunderPeriod &&
      r.enabled == m.enabled && r.pendingStrikes == m.pendingStrikes
    ensures !(t == Clear && isNight) ==> r == Play(m, t, windSpeed, available, rPeriod)
    ensures Inv(m) ==> Inv(r)
  {
    if t == Clear && isNight then m.(gen := G.StopAll(m.gen))
    else Play(m, t, windSpeed, available, rPeriod)
  }

  /**
   * `toggleSound()`: switching off stops everything and disarms the thunder
   * interval; switching on replays the current weather with the default wind
   * speed 0.
   */
  function Toggle(m: Manager, available: bool, rPeriod: real): (r: Manager)
    requires G.IsDraw(rPeriod)
    ensures r.enabled == !m.enabled
    ensures r.current == m.current
    ensures m.enabled ==> r.gen.registry == map[] && r.thunderPeriod.None? && r.pendingStrikes == m.pendingStrikes
    ensures m.enabled && G.Valid(m.gen) ==> r.gen.liveLoops == {}
    ensures !m.enabled && (G.Ready(m.gen) || available) ==> Plays(r.gen.registry, Recipe(m.current, 0.0))
    ensures Inv(m) ==> Inv(r)
  {
    if m.enabled then m.(enabled := false, gen := G.StopAll(m.gen), thunderPeriod := None)
    else Play(m.(enabled := true), m.current, 0.0, available, rPeriod)
  }

  /** `adjustVolume(v)`: records `v` and forwards it, unclamped, to the master gain. */
  function AdjustVolume(m: Manager, v: real): (r: Manager)
    ensures r.volume == v
    ensures G.Ready(m.gen) ==> r.gen.masterGain == Some(v)
    ensures r.gen.registry == m.gen.registry && r.gen.liveLoops == m.gen.liveLoops
    ensures r.enabled == m.enabled && r.current == m.current && r.thunderPeriod == m.thunderPeriod
    ensures Inv(m) ==> Inv(r)
  {
    m.(volume := v, gen := G.SetMasterVolume(m.gen, v))
  }

  /** `resumeAudio()`: initialises the generator the first time. */
  function ResumeAudio(m: Manager, available: bool): (r: Manager)
    ensures r.hookReady
    ensures !m.hookReady && available ==> G.Ready(r.gen)
    ensures r.gen.registry == m.gen.registry && r.gen.liveLoops == m.gen.liveLoops
    ensures r.enabled == m.enabled && r.current == m.current && r.thunderPeriod == m.thunderPeriod
    ensures Inv(m) ==> Inv(r)
  {
    if m.hookReady then m else m.(gen := G.Init(m.gen, available), hookReady := true)
  }

  /** The unmount clean-up: stop everything and clear the thunder interval. */
  function Unmount(m: Manager): (r: Manager)
    ensures r.gen.registry == map[] && r.thunderPeriod.None?
    ensures G.Valid(m.gen) ==> r.gen.liveLoops == {}
  {
    m.(gen := G.StopAll(m.gen), thunderPeriod := None)
  }

  // ---------------------------------------------------------------- timers

  /** A tick of the thunder interval: a clap when the weather is still a thunderstorm and the draw exceeds 0.5. */
  function ThunderTick(m: Manager, r: real, available: bool): (out: (Manager, bool))
    requires m.thunderPeriod.Some? && G.IsDraw(r)
    ensures out.1 ==> m.current == Thunderstorm && r > 0.5
    ensures m.current == Thunderstorm && r > 0.5 && (G.Ready(m.gen) || available) ==> out.1
    ensures out.0.gen.registry == m.gen.registry && out.0.current == m.current
    ensures out.0.thunderPeriod == m.thunderPeriod
    ensures Inv(m) ==> Inv(out.0)
  {
    if m.current == Thunderstorm && r > 0.5 then
      var (g, shot) := G.CreateThunder(m.gen, available);
      (m.(gen := g), shot.Some?)
    else (m, false)
  }

  /** The one-second initial clap: fires regardless of the current weather or the enabled flag. */
  function InitialStrike(m: Manager, available: bool): (out: (Manager, bool))
    requires m.pendingStrikes > 0
    ensures out.0.pendingStrikes == m.pendingStrikes - 1
    ensures out.1 <==> G.Ready(m.gen) || available
    ensures out.0.gen.registry == m.gen.registry && out.0.enabled == m.enabled && out.0.current == m.current
    ensures Inv(m) ==> Inv(out.0)
  {
    var (g, shot) := G.CreateThunder(m.gen, available);
    (m.(gen := g, pendingStrikes := m.pendingStrikes - 1), shot.Some?)
  }

  /** A chirp timer of bird loop `loop`: only the loop of the registered bird voice sings or reschedules. */
  function BirdTimer(m: Manager, loop: nat, rSong: real, rDelay: real): (s: G.BirdStep)
    requires G.IsDraw(rSong) && G.IsDraw(rDelay)
    ensures Inv(m) && (s.sings || s.next.Some?) ==>
      G.Birds in m.gen.registry && m.gen.registry[G.Birds] == G.BirdVoice(loop)
  {
    G.ChirpTimer(loop in m.gen.liveLoops, rSong, rDelay)
  }

  // ---------------------------------------------------------------- properties

  /** After switching sound off nothing is registered, no bird loop can sing and no thunder interval can tick. */
  lemma ToggleOffSilences(m: Manager, available: bool, rPeriod: real, loop: nat, rSong: real, rDelay: real)
    requires Inv(m) && m.enabled && G.IsDraw(rPeriod) && G.IsDraw(rSong) && G.IsDraw(rDelay)
    ensures var r := Toggle(m, available, rPeriod);
      && r.gen.registry == map[] && r.thunderPeriod.None?
      && BirdTimer(r, loop, rSong, rDelay) == G.BirdStep(false, None)
  {
  }

  /** While sound is off, weather changes other than a clear night change nothing at all. */
  lemma DisabledIgnoresWeather(m: Manager, t: WeatherType, isNight: bool, ws: real, available: bool, rPeriod: real)
    requires !m.enabled && G.IsDraw(rPeriod) && !(t == Clear && isNight)
    ensures HandleWeatherChange(m, t, isNight, ws, available, rPeriod) == m
  {
  }

  /** Re-enabling sound for cloudy weather replays it with wind speed 0, which registers nothing. */
  lemma CloudyReplayIsSilent(m: Manager, available: bool, rPeriod: real)
    requires Inv(m) && !m.enabled && G.IsDraw(rPeriod) && (m.current == Cloudy || m.current == PartlyCloudy)
    ensures Toggle(m, available, rPeriod).gen.registry == map[]
  {
    assert Recipe(m.current, 0.0) == [];
  }

  /**
   * Any later weather change retires the bird loop of clear weather: once a
   * transition has run, a timer of the old loop neither sings nor reschedules.
   */
  lemma OldBirdLoopStops(m: Manager, t: WeatherType, isNight: bool, ws: real, available: bool, rPeriod: real,
                         rSong: real, rDelay: real)
    requires Inv(m) && m.enabled && G.IsDraw(rPeriod) && G.IsDraw(rSong) && G.IsDraw(rDelay)
    requires G.Birds in m.gen.registry
    ensures var prior := m.gen.registry[G.Birds].loop;
      BirdTimer(HandleWeatherChange(m, t, isNight, ws, available, rPeriod), prior, rSong, rDelay) == G.BirdStep(false, None)
  {
    assert m.gen.registry[G.Birds].loop in m.gen.liveLoops;
  }

  /** Light rain by day (any 5xx code but 502-504) plays rain at intensity 0.5 alone and arms nothing. */
  lemma LightRainByDay(m: Manager, n: int, available: bool, rPeriod: real)
    requires Inv(m) && m.enabled && available && G.IsDraw(rPeriod)
    requires 500 <= n < 600 && n != 502 && n != 503 && n != 504
    ensures var t := Classify(Code(n), None);
      var r := HandleWeatherChange(m, t, false, 0.0, available, rPeriod);
      t == Rain && r.gen.registry == map[G.Rain := G.RainVoice(0.5)] && r.thunderPeriod.None?
  {
    ConditionGroups(n, None);
    var r := HandleWeatherChange(m, Rain, false, 0.0, available, rPeriod);
    assert Plays(r.gen.registry, [RainAt(0.5)]);
    assert r.gen.registry.Keys == {G.Rain};
  }

  /** A 2xx code plays rain and wind, arms the thunder interval and queues the one-second clap. */
  lemma ThunderstormByDay(m: Manager, n: int, available: bool, rPeriod: real)
    requires Inv(m) && m.enabled && available && G.IsDraw(rPeriod)
    requires 200 <= n < 300
    ensures var t := Classify(Code(n), None);
      var r := HandleWeatherChange(m, t, false, 0.0, available, rPeriod);
      && t == Thunderstorm
      && r.gen.registry == map[G.Rain := G.RainVoice(0.8), G.Wind := G.WindVoice(0.3)]
      && r.thunderPeriod.Some? && r.pendingStrikes == m.pendingStrikes + 1
  {
    ConditionGroups(n, None);
    ThunderstormPlays(m, available, rPeriod);
  }

  /** Playing a thunderstorm with audio available registers rain 0.8 and wind 0.3 and arms thunder. */
  lemma ThunderstormPlays(m: Manager, available: bool, rPeriod: real)
    requires Inv(m) && m.enabled && available && G.IsDraw(rPeriod)
    ensures var r := Play(m, Thunderstorm, 0.0, available, rPeriod);
      && r.gen.registry == map[G.Rain := G.RainVoice(0.8), G.Wind := G.WindVoice(0.3)]
      && r.thunderPeriod.Some? && r.pendingStrikes == m.pendingStrikes + 1
  {
    var r := Play(m, Thunderstorm, 0.0, available, rPeriod);
    assert Recipe(Thunderstorm, 0.0) == [RainAt(0.8), WindAt(0.3)];
    PlaysRainAndWind(r.gen.registry, 0.8, 0.3);
  }

  /** A registry playing exactly rain and wind holds those two voices and nothing else. */
  lemma PlaysRainAndWind(registry: map<G.Key, G.Voice>, rain: real, wind: real)
    requires Plays(registry, [RainAt(rain), WindAt(wind)])
    ensures registry == map[G.Rain := G.RainVoice(rain), G.Wind := G.WindVoice(wind)]
  {
    var rs := [RainAt(rain), WindAt(wind)];
    assert SoundKey(rs[0]) == G.Rain && SoundKey(rs[1]) == G.Wind;
    assert registry[G.Rain] == G.RainVoice(rain);
    assert registry[G.Wind] == G.WindVoice(wind);
    assert G.Birds !in registry;
    assert registry.Keys == {G.Rain, G.Wind};
  }

  /** The one-second clap is not cancelled by switching sound off. */
  lemma InitialStrikeOutlivesToggleOff(m: Manager, available: bool, rPeriod: real)
    requires Inv(m) && m.enabled && available && G.IsDraw(rPeriod)
    ensures var r := Toggle(Play(m, Thunderstorm, 0.0, available, rPeriod), available, rPeriod);
      !r.enabled && r.pendingStrikes > 0 && InitialStrike(r, available).1
  {
  }

  /**
   * As written, clear skies at night leave the thunder interval of a
   * preceding thunderstorm armed and `currentWeatherRef` at 'thunderstorm',
   * so thunder keeps sounding over a silent clear night.
   */
  lemma ThunderOutlivesClearNight(m: Manager, available: bool, rPeriod: real)
    requires Inv(m) && m.enabled && available && G.IsDraw(rPeriod)
    ensures var r := HandleWeatherChange(Play(m, Thunderstorm, 0.0, available, rPeriod), Clear, true, 0.0, available, rPeriod);
      && r.gen.registry == map[] && r.thunderPeriod.Some?
      && ThunderTick(r, 0.9, available).1
  {
  }

  /**
   * `handleWeatherChange` with the clear-night branch also clearing the
   * thunder interval, as `toggleSound` and `playWeatherSound` do.
   */
  function HandleWeatherChangeCorrected(m: Manager, t: WeatherType, isNight: bool, windSpeed: real, available: bool, rPeriod: real): (r: Manager)
    requires G.IsDraw(rPeriod)
    ensures t == Clear && isNight ==>
      r.gen.registry == map[] && r.thunderPeriod.None? && r.current == m.current && r.enabled == m.enabled
    ensures !(t == Clear && isNight) ==> r == Play(m, t, windSpeed, available, rPeriod)
    ensures Inv(m) ==> Inv(r)
  {
    if t == Clear && isNight then m.(gen := G.StopAll(m.gen), thunderPeriod := None)
    else Play(m, t, windSpeed, available, rPeriod)
  }

  /** With the correction, a clear night is silent: nothing registered, no live bird loop, no thunder interval. */
  lemma CorrectedClearNightIsSilent(m: Manager, ws: real, available: bool, rPeriod: real, loop: nat, rSong: real, rDelay: real)
    requires Inv(m) && G.IsDraw(rPeriod) && G.IsDraw(rSong) && G.IsDraw(rDelay)
    ensures var r := HandleWeatherChangeCorrected(m, Clear, true, ws, available, rPeriod);
      && r.gen.registry == map[] && r.thunderPeriod.None?
      && BirdTimer(r, loop, rSong, rDelay) == G.BirdStep(false, None)
  {
  }

  /** A volume change reaches every playing voice without restarting it. */
  lemma VolumeReachesPlayingVoices(m: Manager, v: real, k: G.Key)
    requires G.Ready(m.gen) && k in m.gen.registry
    ensures var r := AdjustVolume(m, v);
      k in r.gen.registry && r.gen.registry[k] == m.gen.registry[k] &&
      G.EffectiveGain(r.gen, k) == G.TargetGain(m.gen.registry[k]) * v
  {
    G.VolumeScalesAllVoices(m.gen, v, k);
  }
}
