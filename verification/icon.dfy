/**
 * The animated weather icon (AnimatedWeatherIcon.js): a coarser classifier of
 * its own and the rules deciding which pictogram elements are drawn.
 */
module Icon {
  import opened Wrappers
  import Decimal
  import W = Weather

  /** The seven icon categories; there is no heavy, tornado or partly-cloudy variant. */
  datatype IconKind = Clear | Cloudy | Fog | Drizzle | Rain | Snow | Thunderstorm

  /** The icon's inner `getWeatherType`: prefix tests on the code's decimal text only. */
  function Classify(code: W.RawCode): (k: IconKind)
    ensures W.Falsy(code) ==> k == Clear
  {
    if W.Falsy(code) then Clear
    else
      var s := Decimal.ToDecimal(code.n);
      if W.StartsWith(s, '2') then Thunderstorm
      else if W.StartsWith(s, '3') then Drizzle
      else if W.StartsWith(s, '5') then Rain
      else if W.StartsWith(s, '6') then Snow
      else if W.StartsWith(s, '7') then Fog
      else if s == "800" then Clear
      else if W.StartsWith(s, '8') then Cloudy
      else Clear
  }

  /** How the icon folds the finer effects categories onto its own. */
  function Collapse(t: W.WeatherType): (k: IconKind)
    ensures t == W.Clear <==> k == Clear
    ensures t == W.Thunderstorm <==> k == Thunderstorm
    ensures t == W.Drizzle <==> k == Drizzle
    ensures k == Rain <==> t == W.Rain || t == W.HeavyRain
    ensures k == Snow <==> t == W.Snow || t == W.HeavySnow
    ensures k == Fog <==> t == W.Fog || t == W.Tornado
    ensures k == Cloudy <==> t == W.Cloudy || t == W.PartlyCloudy
  {
    match t
    case Clear => Clear
    case PartlyCloudy => Cloudy
    case Cloudy => Cloudy
    case Fog => Fog
    case Tornado => Fog
    case Drizzle => Drizzle
    case Rain => Rain
    case HeavyRain => Rain
    case Snow => Snow
    case HeavySnow => Snow
    case Thunderstorm => Thunderstorm
  }

  /** The icon classifier is the effects classifier followed by the collapse. */
  lemma ClassifyRefinesEffects(code: W.RawCode, description: Option<string>)
    ensures Classify(code) == Collapse(W.Classify(code, description))
  {
    if !W.Falsy(code) {
      W.SpecialCodeTexts();
      W.TextIs(code.n, 800, "800");
    }
  }

  /** A drop or flake of the icon, at `left` percent of the icon's width. */
  datatype Particle = Particle(left: int, delay: real)

  /** What the icon draws. */
  datatype Scene = Scene(
    sun: bool, moon: bool, stars: nat, clouds: nat,
    drops: seq<Particle>, flakes: seq<Particle>, fogLines: nat, lightning: bool)

  /** Six evenly spaced particles, 12 percent apart from 20 percent, with staggered delays. */
  function Row(step: real): (ps: seq<Particle>)
    ensures |ps| == 6
    ensures forall i :: 0 <= i < 6 ==> 20 <= ps[i].left <= 80 && ps[i].delay == i as real * step
    ensures forall i, j :: 0 <= i < j < 6 ==> ps[i].left + 12 <= ps[j].left
  {
    seq(6, i => Particle(20 + 12 * i, i as real * step))
  }

  /** The element-visibility rules of the icon for a category and a day/night flag. */
  function Render(k: IconKind, isNight: bool): (s: Scene)
    ensures s.sun <==> !isNight && (k == Clear || k == Cloudy)
    ensures s.moon <==> isNight && k == Clear
    ensures s.stars > 0 <==> s.moon
    ensures !(s.sun && s.moon)
    ensures s.clouds > 0 <==> k in {Cloudy, Rain, Drizzle, Snow, Thunderstorm}
    ensures s.clouds == 2 <==> k in {Rain, Drizzle, Snow, Thunderstorm}
    ensures s.clouds <= 2
    ensures |s.drops| > 0 <==> k == Rain || k == Drizzle
    ensures |s.flakes| > 0 <==> k == Snow
    ensures s.fogLines > 0 <==> k == Fog
    ensures s.lightning <==> k == Thunderstorm
    ensures s.lightning ==> s.clouds == 2
  {
    var cloudy := k in {Cloudy, Rain, Drizzle, Snow, Thunderstorm};
    Scene(
      sun := (k == Clear || k == Cloudy) && !isNight,
      moon := k == Clear && isNight,
      stars := if isNight && k == Clear then 5 else 0,
      clouds := if !cloudy then 0 else if k != Cloudy then 2 else 1,
      drops := if k == Rain || k == Drizzle then Row(0.15) else [],
      flakes := if k == Snow then Row(0.2) else [],
      fogLines := if k == Fog then 4 else 0,
      lightning := k == Thunderstorm)
  }
}
