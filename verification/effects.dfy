/**
 * The full-screen weather background (WeatherEffects.js): how many rain drops,
 * snow flakes and clouds each category gets, the random particle generators,
 * and the gates for the sun, click ripples, wind streaks and lightning.
 * Each `Math.random()` call is an explicit draw in [0, 1).
 */
module Effects {
  import opened Wrappers
  import opened Weather
  import Decimal
  import Icon

  predicate IsDraw(r: real) {
    0.0 <= r < 1.0
  }

  predicate AllDraws(rs: seq<real>) {
    forall k :: 0 <= k < |rs| ==> IsDraw(rs[k])
  }

  /** `Math.floor(r * 3) + 1`: one of 1, 2, 3. */
  function OneToThree(r: real): (v: int)
    requires IsDraw(r)
    ensures 1 <= v <= 3
    ensures v == 1 <==> r < 1.0 / 3.0
    ensures v == 3 <==> 2.0 / 3.0 <= r
  {
    (r * 3.0).Floor + 1
  }

  // ---------------------------------------------------------------- particle table

  /** Particle counts chosen for a category; `thickClouds` selects the denser cloud opacity. */
  datatype ParticleSetup = ParticleSetup(drops: nat, flakes: nat, clouds: nat, thickClouds: bool)

  /** Click ripples are only added for the rainy categories. */
  predicate RipplesAllowed(t: WeatherType) {
    t in [Rain, HeavyRain, Drizzle, Thunderstorm]
  }

  function Setup(t: WeatherType): (p: ParticleSetup)
    ensures !(p.drops > 0 && p.flakes > 0)
    ensures p.drops > 0 <==> RipplesAllowed(t)
    ensures p.flakes > 0 <==> t == Snow || t == HeavySnow
    ensures p.thickClouds <==> p.clouds >= 8
    ensures 2 <= p.clouds <= 12
    ensures p.clouds == 2 <==> t == Clear || t == Tornado
  {
    match t
    case Rain => ParticleSetup(100, 0, 8, true)
    case HeavyRain => ParticleSetup(200, 0, 12, true)
    case Thunderstorm => ParticleSetup(200, 0, 12, true)
    case Drizzle => ParticleSetup(50, 0, 6, false)
    case Snow => ParticleSetup(0, 100, 6, false)
    case HeavySnow => ParticleSetup(0, 200, 10, true)
    case Cloudy => ParticleSetup(0, 0, 10, true)
    case PartlyCloudy => ParticleSetup(0, 0, 5, false)
    case Fog => ParticleSetup(0, 0, 4, false)
    case Clear => ParticleSetup(0, 0, 2, false)
    case Tornado => ParticleSetup(0, 0, 2, false)
  }

  /** The heavy categories draw strictly more particles and clouds than their light twins. */
  lemma HeavierIsDenser()
    ensures Setup(Drizzle).drops < Setup(Rain).drops < Setup(HeavyRain).drops
    ensures Setup(Snow).flakes < Setup(HeavySnow).flakes
    ensures Setup(Drizzle).clouds < Setup(Rain).clouds < Setup(HeavyRain).clouds
    ensures Setup(Snow).clouds < Setup(HeavySnow).clouds
    ensures Setup(PartlyCloudy).clouds < Setup(Cloudy).clouds
  {
  }

  // ---------------------------------------------------------------- generators

  datatype RainDrop = RainDrop(id: nat, left: real, duration: real, delay: real, intensity: int)
  datatype SnowFlake = SnowFlake(id: nat, left: real, duration: real, delay: real, size: int)
  datatype Cloud = Cloud(id: nat, top: real, duration: real, delay: real, scale: real, opacity: real, kind: int)

  /** One rain drop from its four draws (left, duration, delay, intensity). */
  function MakeDrop(id: nat, r0: real, r1: real, r2: real, r3: real): (d: RainDrop)
    requires IsDraw(r0) && IsDraw(r1) && IsDraw(r2) && IsDraw(r3)
    ensures d.id == id
    ensures 0.0 <= d.left < 100.0 && 0.5 <= d.duration < 0.8 && 0.0 <= d.delay < 2.0
    ensures 1 <= d.intensity <= 3
  {
    RainDrop(id, r0 * 100.0, 0.5 + r1 * 0.3, r2 * 2.0, OneToThree(r3))
  }

  /** One snow flake from its four draws (left, duration, delay, size). */
  function MakeFlake(id: nat, r0: real, r1: real, r2: real, r3: real): (f: SnowFlake)
    requires IsDraw(r0) && IsDraw(r1) && IsDraw(r2) && IsDraw(r3)
    ensures f.id == id
    ensures 0.0 <= f.left < 100.0 && 5.0 <= f.duration < 15.0 && 0.0 <= f.delay < 5.0
    ensures 1 <= f.size <= 3
  {
    SnowFlake(id, r0 * 100.0, 5.0 + r1 * 10.0, r2 * 5.0, OneToThree(r3))
  }

  /** One cloud from its six draws (top, duration, delay, scale, opacity, type). */
  function MakeCloud(id: nat, thick: bool, r0: real, r1: real, r2: real, r3: real, r4: real, r5: real): (c: Cloud)
    requires IsDraw(r0) && IsDraw(r1) && IsDraw(r2) && IsDraw(r3) && IsDraw(r4) && IsDraw(r5)
    ensures c.id == id
    ensures 5.0 <= c.top < 30.0 && 60.0 <= c.duration < 120.0 && -60.0 < c.delay <= 0.0
    ensures 0.5 <= c.scale < 1.5
    ensures thick ==> 0.8 <= c.opacity < 1.0
    ensures !thick ==> 0.4 <= c.opacity < 0.8
    ensures 1 <= c.kind <= 3
  {
    Cloud(id, 5.0 + r0 * 25.0, 60.0 + r1 * 60.0, -r2 * 60.0, 0.5 + r3 * 1.0,
          if thick then 0.8 + r4 * 0.2 else 0.4 + r4 * 0.4, OneToThree(r5))
  }

  /** `generateRainDrops(count)`; drop `i` consumes draws `4i .. 4i+3`. */
  method GenerateRainDrops(count: nat, random: seq<real>) returns (drops: seq<RainDrop>)
    requires |random| >= 4 * count && AllDraws(random)
    ensures |drops| == count
    ensures forall i :: 0 <= i < count ==> drops[i].id == i && 1 <= drops[i].intensity <= 3
    ensures forall i :: 0 <= i < count ==> 0.0 <= drops[i].left < 100.0 && 0.5 <= drops[i].duration < 0.8
    ensures forall i :: 0 <= i < count ==>
      drops[i] == MakeDrop(i, random[4 * i], random[4 * i + 1], random[4 * i + 2], random[4 * i + 3])
  {
    drops := [];
    var i := 0;
    while i < count
      invariant 0 <= i <= count
      invariant |drops| == i
      invariant forall j :: 0 <= j < i ==>
        drops[j] == MakeDrop(j, random[4 * j], random[4 * j + 1], random[4 * j + 2], random[4 * j + 3])
    {
      drops := drops + [MakeDrop(i, random[4 * i], random[4 * i + 1], random[4 * i + 2], random[4 * i + 3])];
      i := i + 1;
    }
  }

  /** `generateSnowFlakes(count)`; flake `i` consumes draws `4i .. 4i+3`. */
  method GenerateSnowFlakes(count: nat, random: seq<real>) returns (flakes: seq<SnowFlake>)
    requires |random| >= 4 * count && AllDraws(random)
    ensures |flakes| == count
    ensures forall i :: 0 <= i < count ==> flakes[i].id == i && 1 <= flakes[i].size <= 3
    ensures forall i :: 0 <= i < count ==>
      flakes[i] == MakeFlake(i, random[4 * i], random[4 * i + 1], random[4 * i + 2], random[4 * i + 3])
  {
    flakes := [];
    var i := 0;
    while i < count
      invariant 0 <= i <= count
      invariant |flakes| == i
      invariant forall j :: 0 <= j < i ==>
        flakes[j] == MakeFlake(j, random[4 * j], random[4 * j + 1], random[4 * j + 2], random[4 * j + 3])
    {
      flakes := flakes + [MakeFlake(i, random[4 * i], random[4 * i + 1], random[4 * i + 2], random[4 * i + 3])];
      i := i + 1;
    }
  }

  /** `generateClouds(count, isThick)`; cloud `i` consumes draws `6i .. 6i+5`. */
  method GenerateClouds(count: nat, thick: bool, random: seq<real>) returns (clouds: seq<Cloud>)
    requires |random| >= 6 * count && AllDraws(random)
    ensures |clouds| == count
    ensures forall i :: 0 <= i < count ==> clouds[i].id == i && 1 <= clouds[i].kind <= 3
    ensures forall i :: 0 <= i < count ==>
      (if thick then 0.8 <= clouds[i].opacity < 1.0 else 0.4 <= clouds[i].opacity < 0.8)
    ensures forall i :: 0 <= i < count ==>
      clouds[i] == MakeCloud(i, thick, random[6 * i], random[6 * i + 1], random[6 * i + 2],
                             random[6 * i + 3], random[6 * i + 4], random[6 * i + 5])
  {
    clouds := [];
    var i := 0;
    while i < count
      invariant 0 <= i <= count
      invariant |clouds| == i
      invariant forall j :: 0 <= j < i ==>
        clouds[j] == MakeCloud(j, thick, random[6 * j], random[6 * j + 1], random[6 * j + 2],
                               random[6 * j + 3], random[6 * j + 4], random[6 * j + 5])
    {
      clouds := clouds + [MakeCloud(i, thick, random[6 * i], random[6 * i + 1], random[6 * i + 2],
                                    random[6 * i + 3], random[6 * i + 4], random[6 * i + 5])];
      i := i + 1;
    }
  }

  // ---------------------------------------------------------------- gates

  /** The sky elements of the background for a category and a day/night flag. */
  datatype Sky = Sky(sun: bool, moon: bool, stars: bool, fog: bool, windStreaks: nat)

  /** `weather?.windSpeed || 0`: a missing (or zero) wind speed reads as 0. */
  function WindSpeedOf(windSpeed: Option<real>): (v: real)
    ensures windSpeed.None? ==> v == 0.0
    ensures windSpeed.Some? ==> v == windSpeed.value
  {
    windSpeed.GetOr(0.0)
  }

  /** The fields of a weather report the background reads. */
  datatype Report = Report(code: RawCode, description: Option<string>, icon: Option<string>, windSpeed: Option<real>)

  /**
   * What the background derives from its `weather` prop and passes to
   * `onWeatherChange`: category, night flag and wind speed, with clear day
   * and no wind when there is no report.
   */
  function Derive(weather: Option<Report>): (d: (WeatherType, bool, real))
    ensures weather.None? ==> d == (Clear, false, 0.0)
    ensures weather.Some? ==> d.0 == Classify(weather.value.code, weather.value.description)
    ensures weather.Some? ==> (d.1 <==> IsNightTime(weather.value.icon))
    ensures d.1 ==> weather.Some? && weather.value.icon.Some?
    ensures weather.Some? && weather.value.windSpeed.None? ==> d.2 == 0.0
    ensures weather.Some? ==> d.2 == WindSpeedOf(weather.value.windSpeed)
  {
    match weather
    case None => (Clear, false, 0.0)
    case Some(w) => (Classify(w.code, w.description), IsNightTime(w.icon), WindSpeedOf(w.windSpeed))
  }

  function SkyOf(t: WeatherType, isNight: bool, windSpeed: real): (s: Sky)
    ensures s.sun <==> !isNight && (t == Clear || t == PartlyCloudy)
    ensures s.moon <==> isNight
    ensures s.stars <==> isNight
    ensures !(s.sun && s.moon)
    ensures s.fog <==> t == Fog
    ensures s.windStreaks > 0 <==> windSpeed > 10.0
  {
    Sky(!isNight && t in [Clear, PartlyCloudy], isNight, isNight, t == Fog,
        if windSpeed > 10.0 then 20 else 0)
  }

  /** A click on the background adds a ripple to `ripples` only in rainy weather. */
  function Click(t: WeatherType, ripples: seq<nat>, stamp: nat): (r: seq<nat>)
    ensures RipplesAllowed(t) ==> r == ripples + [stamp]
    ensures !RipplesAllowed(t) ==> r == ripples
    ensures |r| <= |ripples| + 1
  {
    if RipplesAllowed(t) then ripples + [stamp] else ripples
  }

  /** One second after a click its ripple (and every other ripple with the same stamp) is removed. */
  function ExpireRipple(ripples: seq<nat>, stamp: nat): (r: seq<nat>)
    ensures |r| <= |ripples|
    ensures forall x :: x in r <==> x in ripples && x != stamp
    ensures forall x :: multiset(r)[x] == if x == stamp then 0 else multiset(ripples)[x]
    decreases |ripples|
  {
    if |ripples| == 0 then []
    else
      var rest := ExpireRipple(ripples[1..], stamp);
      assert ripples == [ripples[0]] + ripples[1..];
      if ripples[0] == stamp then rest
      else [ripples[0]] + rest
  }

  /** Expiring ripple by ripple: the filter distributes over concatenation, so order is kept. */
  lemma {:induction false} ExpireAppend(a: seq<nat>, b: seq<nat>, stamp: nat)
    ensures ExpireRipple(a + b, stamp) == ExpireRipple(a, stamp) + ExpireRipple(b, stamp)
    decreases |a|
  {
    if |a| == 0 {
      assert a + b == b;
    } else {
      assert (a + b)[0] == a[0] && (a + b)[1..] == a[1..] + b;
      ExpireAppend(a[1..], b, stamp);
    }
  }

  /** A stamp that no ripple carries expires nothing. */
  lemma {:induction false} ExpireAbsent(ripples: seq<nat>, stamp: nat)
    requires stamp !in ripples
    ensures ExpireRipple(ripples, stamp) == ripples
    decreases |ripples|
  {
    if |ripples| > 0 {
      ExpireAbsent(ripples[1..], stamp);
    }
  }

  /**
   * The expiry timer of a click undoes the click: with a fresh stamp (the
   * click's `Date.now()`), the ripples after expiry are those before the click.
   */
  lemma ExpireUndoesClick(t: WeatherType, ripples: seq<nat>, stamp: nat)
    requires stamp !in ripples
    ensures ExpireRipple(Click(t, ripples, stamp), stamp) == ripples
  {
    ExpireAbsent(ripples, stamp);
    if RipplesAllowed(t) {
      ExpireAppend(ripples, [stamp], stamp);
      assert ExpireRipple([stamp], stamp) == [];
    }
  }

  /** The lightning interval of the background: armed only for thunderstorms, period 3-8 s. */
  function LightningPeriod(t: WeatherType, r: real): (period: Option<real>)
    requires IsDraw(r)
    ensures period.Some? <==> t == Thunderstorm
    ensures period.Some? ==> 3000.0 <= period.value < 8000.0
  {
    if t == Thunderstorm then Some(3000.0 + r * 5000.0) else None
  }

  /** One lightning tick: flashes when its draw exceeds 0.6, and flashes twice when the second draw exceeds 0.5. */
  function LightningFlashes(r: real, rDouble: real): (flashes: nat)
    requires IsDraw(r) && IsDraw(rDouble)
    ensures flashes <= 2
    ensures flashes > 0 <==> r > 0.6
    ensures flashes == 2 <==> r > 0.6 && rDouble > 0.5
  {
    if r > 0.6 then (if rDouble > 0.5 then 2 else 1) else 0
  }

  /** Rain drops fall on the background exactly when the icon shows drops or lightning. */
  lemma DropsMatchIcon(code: RawCode, d: Option<string>, isNight: bool)
    ensures Setup(Classify(code, d)).drops > 0 <==>
      var s := Icon.Render(Icon.Classify(code), isNight); |s.drops| > 0 || s.lightning
  {
    Icon.ClassifyRefinesEffects(code, d);
  }

  /** Whenever the background shows the sun, so does the icon; the converse fails for overcast skies. */
  lemma SunAgreesWithIcon(code: RawCode, d: Option<string>, isNight: bool, ws: real)
    ensures SkyOf(Classify(code, d), isNight, ws).sun ==> Icon.Render(Icon.Classify(code), isNight).sun
  {
    Icon.ClassifyRefinesEffects(code, d);
  }

  lemma OvercastSunOnlyOnIcon()
    ensures Icon.Render(Icon.Classify(Code(804)), false).sun
    ensures !SkyOf(Classify(Code(804), None), false, 0.0).sun
  {
    Icon.ClassifyRefinesEffects(Code(804), None);
    ClassifyMatchesNumbers(Code(804), None);
    assert Decimal.LeadingDigit(804) == 8 by { Decimal.LeadingDigitOfThreeDigits(804); }
  }
}
