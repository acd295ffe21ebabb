# Metio weather display: ambient sound engine and weather visuals

This project models the logic core of the Metio weather app in Dafny:

- **Ambient-sound controller** (`useSoundManager.js`). `SoundGenerator` keeps a registry of looping synthetic voices (rain, wind, birds) and plays one-shot thunder. The `useSoundManager` hook picks a recipe of voices for each weather category. It also arms thunder timers, switches sound on and off, and forwards the volume.
- **Weather classifiers**. The effects background (`WeatherEffects.js`) maps OpenWeatherMap condition codes to eleven categories. The animated icon (`AnimatedWeatherIcon.js`) has a coarser classifier of its own. Both files then decide particle counts and which sky elements show.
- **Temperature read-out** (`AnimatedTemperature.js`). It maps the shown value to a colour band and counts to a new value with an ease-out cubic over 1.5 s.

Everything is modelled with pure functions over immutable datatypes:

- The generator is a record with the master gain, the registry `map<Key, Voice>`, the set of live bird loops and a log of retired voices.
- The hook is a record with the enabled flag, the current weather, the armed thunder period and the count of pending one-second claps.
- Each public operation, and each timer firing, is one transition function.
- Inputs the program takes from its environment become parameters. Whether the platform offers Web Audio is `available`. Each `Math.random()` call is a real draw in [0, 1). `Date.now()` is `now`.

Modules, one per file:

| file | module | covers |
|---|---|---|
| wrappers.dfy | Wrappers | `Option` |
| decimal.dfy | Decimal | `Number#toString` for integers and its inverse parser |
| weather.dfy | Weather | `getWeatherType`, its numeric reference, `isNightTime` |
| effects.dfy | Effects | particle table, generators, sun/ripple/wind/lightning gates |
| icon.dfy | Icon | the icon classifier, its collapse from the effects categories, element rules |
| temperature.dfy | Temperature | colour bands, progress, easing, interpolation, animation steps |
| sound_generator.dfy | SoundGenerator | registry operations, voice parameters, thunder, bird-song timing |
| sound_manager.dfy | SoundManager | hook transitions, recipes, timers, scenario lemmas |

Behaviour of the code that the model keeps as written:

- `adjustVolume` forwards its value unclamped (`useSoundManager.js:450-453`).
- A clear night changes no state beyond stopping the voices: `currentWeatherRef` keeps its old value (`useSoundManager.js:423-426`).
- Classification tests the code's decimal text, not numeric ranges (`WeatherEffects.js:8-38`). So `5` and `5000` are rain, and `-500` is clear.
- No transition checks whether a newer weather change arrived during the 300 ms settle delay (`useSoundManager.js:364-365`).

## Model

| member | source | states |
|---|---|---|
| Decimal.ToDecimal | frontend/src/components/effects/WeatherEffects.js:8 | `code.toString()` of an integer is non-empty, starts with '-' exactly for negatives, and is all digits otherwise |
| Decimal.ParseNatural | frontend/src/components/effects/WeatherEffects.js:8 | parsing the printed digits of n gives n back (round trip) |
| Decimal.ToDecimalInjective | frontend/src/components/effects/WeatherEffects.js:17 | two integers print the same text exactly when they are equal, so the string tests `code === '502'` are integer tests |
| Decimal.FirstCharIsLeadingDigit | frontend/src/components/effects/WeatherEffects.js:12 | the first printed character of a natural number is its leading decimal digit, the thing `startsWith` tests |
| Weather.Classify | frontend/src/components/effects/WeatherEffects.js:5-39 | a missing or zero code, and any negative code, classify as clear |
| Weather.ClassifyMatchesNumbers | frontend/src/components/effects/WeatherEffects.js:5-39 | for every code, the string-prefix classifier equals a reference stated on leading digit and exact integer codes |
| Weather.DescriptionIgnored | frontend/src/components/effects/WeatherEffects.js:9 | the description never changes the category |
| Weather.ConditionGroups | frontend/src/components/effects/WeatherEffects.js:12-38 | on three-digit codes: 2xx thunderstorm, 3xx drizzle, 502-504 heavy rain, other 5xx rain, 602/622 heavy snow, other 6xx snow, 781 tornado, other 7xx fog, 800 clear, 801/802 partly cloudy, 803-899 cloudy, everything else clear, each as an if-and-only-if |
| Weather.IsNightTime | frontend/src/components/effects/WeatherEffects.js:42-44 | night exactly when the icon name is present and contains 'n' |
| Effects.Derive | frontend/src/components/effects/WeatherEffects.js:153-162 | the values passed to `onWeatherChange`: clear, day and zero wind without a report; otherwise the classifier, the night test and the report's wind speed, read as 0 when absent |
| Effects.WindSpeedOf | frontend/src/components/effects/WeatherEffects.js:155 | a missing wind speed reads as 0 |
| Effects.Setup | frontend/src/components/effects/WeatherEffects.js:241-291 | rain drops and snow flakes never together; drops exactly for the ripple categories; flakes exactly for snow and heavy snow; thick clouds exactly when there are at least 8; 2 to 12 clouds, 2 only for clear and the default branch |
| Effects.HeavierIsDenser | frontend/src/components/effects/WeatherEffects.js:243-283 | drizzle < rain < heavy rain in drops and clouds, snow < heavy snow in flakes and clouds, partly cloudy < cloudy in clouds |
| Effects.OneToThree | frontend/src/components/effects/WeatherEffects.js:173 | `Math.floor(r*3)+1` lies in {1,2,3}, with each value taking a third of the draw range |
| Effects.MakeDrop | frontend/src/components/effects/WeatherEffects.js:168-174 | a drop keeps its id; left in [0,100), duration in [0.5,0.8), delay in [0,2), intensity in {1,2,3} |
| Effects.MakeFlake | frontend/src/components/effects/WeatherEffects.js:183-189 | a flake keeps its id; left in [0,100), duration in [5,15), delay in [0,5), size in {1,2,3} |
| Effects.MakeCloud | frontend/src/components/effects/WeatherEffects.js:198-206 | a cloud keeps its id; top in [5,30), scale in [0.5,1.5), opacity in [0.8,1) when thick and [0.4,0.8) otherwise, type in {1,2,3} |
| Effects.GenerateRainDrops | frontend/src/components/effects/WeatherEffects.js:165-177 | exactly `count` drops with ids 0..count-1, drop i built from draws 4i..4i+3 |
| Effects.GenerateSnowFlakes | frontend/src/components/effects/WeatherEffects.js:180-192 | exactly `count` flakes with ids 0..count-1, flake i built from draws 4i..4i+3 |
| Effects.GenerateClouds | frontend/src/components/effects/WeatherEffects.js:195-209 | exactly `count` clouds with ids 0..count-1, opacity band chosen by thickness, cloud i built from draws 6i..6i+5 |
| Effects.SkyOf | frontend/src/components/effects/WeatherEffects.js:326-358 | sun only by day for clear or partly cloudy; moon and stars exactly at night; never sun and moon together; fog layers only for fog; wind streaks exactly when wind speed > 10 |
| Effects.Click | frontend/src/components/effects/WeatherEffects.js:294-302 | a click adds one ripple for rain, heavy rain, drizzle and thunderstorm, and nothing otherwise |
| Effects.ExpireRipple | frontend/src/components/effects/WeatherEffects.js:304-306 | removing a stamp keeps every other ripple with its multiplicity, and drops every copy of the stamp |
| Effects.ExpireAppend | frontend/src/components/effects/WeatherEffects.js:304-306 | the expiry filter distributes over concatenation, so the surviving ripples keep their order |
| Effects.ExpireUndoesClick | frontend/src/components/effects/WeatherEffects.js:294-306 | a click followed by its own expiry, with a stamp no ripple carries yet, leaves the ripples as they were before the click |
| Effects.LightningPeriod | frontend/src/components/effects/WeatherEffects.js:212-235 | the lightning interval is armed exactly for thunderstorms, with a period in [3000, 8000) ms |
| Effects.LightningFlashes | frontend/src/components/effects/WeatherEffects.js:218-233 | a tick flashes exactly when its draw exceeds 0.6, and twice exactly when the second draw also exceeds 0.5 |
| Effects.DropsMatchIcon | frontend/src/components/effects/WeatherEffects.js:241-291 | the background has rain drops exactly when the icon for the same code shows drops or lightning |
| Effects.SunAgreesWithIcon | frontend/src/components/effects/WeatherEffects.js:329 | whenever the background shows the sun, the icon for the same code and time of day shows it too |
| Effects.OvercastSunOnlyOnIcon | frontend/src/components/effects/WeatherEffects.js:329 | the converse fails: for code 804 by day the icon shows the sun and the background does not |
| Icon.Classify | frontend/src/components/ui/AnimatedWeatherIcon.js:5-18 | a missing or zero code is clear |
| Icon.Collapse | frontend/src/components/ui/AnimatedWeatherIcon.js:5-18 | the fold of effects categories onto icon categories: heavy rain to rain, heavy snow to snow, tornado to fog, partly cloudy to cloudy, the rest unchanged, each as an if-and-only-if |
| Icon.ClassifyRefinesEffects | frontend/src/components/ui/AnimatedWeatherIcon.js:5-18 | for every code, the icon classifier equals the effects classifier followed by the collapse |
| Icon.Row | frontend/src/components/ui/AnimatedWeatherIcon.js:86-95 | six particles at left 20+12i percent, increasing by 12, within [20,80] |
| Icon.Render | frontend/src/components/ui/AnimatedWeatherIcon.js:25-137 | sun only by day for clear or cloudy; moon and stars only at night for clear; clouds for cloudy, rain, drizzle, snow and thunderstorm, two exactly for all but cloudy; drops for rain and drizzle; flakes for snow; fog lines for fog; lightning only for thunderstorm |
| Temperature.ColorBand | frontend/src/components/ui/AnimatedTemperature.js:48-54 | cold ≤ 0 < cool ≤ 10 < mild ≤ 20 < warm ≤ 30 < hot, each as an if-and-only-if |
| Temperature.ColorBandMonotone | frontend/src/components/ui/AnimatedTemperature.js:48-54 | a warmer value never gets a colder band |
| Temperature.ColorBandOnto | frontend/src/components/ui/AnimatedTemperature.js:48-54 | every band is reached by some temperature |
| Temperature.Progress | frontend/src/components/ui/AnimatedTemperature.js:20-21 | progress ≤ 1, ≥ 0 for non-negative elapsed time, equal to 1 exactly once 1500 ms have elapsed, and proportional to the elapsed time before that |
| Temperature.Ease | frontend/src/components/ui/AnimatedTemperature.js:24 | the ease is 0 at 0 and 1 at 1, stays in [0,1] on [0,1], and never lags the linear progress |
| Temperature.EaseMonotone | frontend/src/components/ui/AnimatedTemperature.js:24 | the ease is nondecreasing on [0,1] |
| Temperature.Interpolate | frontend/src/components/ui/AnimatedTemperature.js:26 | for an ease in [0,1] the value lies between the start and end values, at the start for 0 and at the end for 1 |
| Temperature.Round | frontend/src/components/ui/AnimatedTemperature.js:27 | `Math.round` gives the integer within half a unit, with halves rounded up |
| Temperature.RoundBetween | frontend/src/components/ui/AnimatedTemperature.js:27 | rounding a value between two integers stays between them |
| Temperature.Mount | frontend/src/components/ui/AnimatedTemperature.js:5-7 | the first render shows the value at rest with nothing animating |
| Temperature.OnValue | frontend/src/components/ui/AnimatedTemperature.js:10-18 | an unchanged prop does nothing; a prop equal to the previous value starts no animation; otherwise a count from the previous value to the new one starts |
| Temperature.OnFrame | frontend/src/components/ui/AnimatedTemperature.js:19-36 | for non-negative elapsed time the shown value lies between start and end; after 1500 ms it equals the end, the previous value becomes the end and animation stops |
| Temperature.FrameKeepsSettled | frontend/src/components/ui/AnimatedTemperature.js:19-36 | frames preserve the consistency of display, previous value and pending count, and the final frame lands on the prop |
| Temperature.StuckWhenValueReturns | frontend/src/components/ui/AnimatedTemperature.js:10-44 | going 10 → 20 and back to 10 mid-count leaves 19 displayed, animating set and no frame pending |
| Temperature.OnValueCorrected | frontend/src/components/ui/AnimatedTemperature.js:10-18 | the corrected effect keeps the view consistent; at rest the display equals the prop |
| Temperature.CorrectedSettlesWhenValueReturns | frontend/src/components/ui/AnimatedTemperature.js:10-18 | with the correction the same props end at rest on 10 |
| SoundGenerator.RainGraphFor | frontend/src/hooks/useSoundManager.js:64-88 | the lowpass sits exactly 2000 Hz above the bandpass centre; the target gain is 0.4 × intensity and equals (bandpass − 1000)/5000, so the bandpass is 1000 + 2000 × intensity; for intensity in [0,1] the bandpass is in [1000,3000] and the gain in [0,0.4]; fade-in 2 s |
| SoundGenerator.WindGraphFor | frontend/src/hooks/useSoundManager.js:115-139 | the LFO swings the 400 Hz bandpass between 200 and 600 Hz; the target gain is 0.3 × intensity, at most 0.3 for intensity ≤ 1; fade-in 2 s |
| SoundGenerator.ParametersMonotone | frontend/src/hooks/useSoundManager.js:67-139 | a higher intensity never lowers a cutoff or a target gain |
| SoundGenerator.TargetGain | frontend/src/hooks/useSoundManager.js:88 | the fade-in target of a registered voice comes from its rain or wind parameters; bird loops have none |
| SoundGenerator.TeardownOf | frontend/src/hooks/useSoundManager.js:285-301 | noise voices fade to 0 before their source stops (500 ms < 600 ms); only wind stops an LFO; only birds end a loop, their own |
| SoundGenerator.Fresh | frontend/src/hooks/useSoundManager.js:14-19 | a new generator has no context and an empty registry, and satisfies the registry invariant |
| SoundGenerator.Init | frontend/src/hooks/useSoundManager.js:21-39 | idempotent; a context exists afterwards exactly when it already did or audio is available; the first success sets the master gain to 0.5; the registry is untouched |
| SoundGenerator.StopSound | frontend/src/hooks/useSoundManager.js:281-304 | an absent key is a no-op; a present key is removed, its voice retired, its bird loop deactivated, and every other entry left unchanged |
| SoundGenerator.StopKeys | frontend/src/hooks/useSoundManager.js:306-310 | stopping a list of keys removes exactly those keys, retires each removed voice and keeps the retired log as a prefix |
| SoundGenerator.StopAll | frontend/src/hooks/useSoundManager.js:306-310 | afterwards the registry is empty, no bird loop is live, and every voice that was registered has been retired |
| SoundGenerator.CreateRain | frontend/src/hooks/useSoundManager.js:42-92 | with a context, the previous rain voice is retired and exactly one rain voice of the given intensity is registered, other keys unchanged; without one nothing changes |
| SoundGenerator.CreateWind | frontend/src/hooks/useSoundManager.js:95-143 | the same replace-then-register guarantee for the wind key |
| SoundGenerator.CreateBirds | frontend/src/hooks/useSoundManager.js:192-279 | the previous bird loop is deactivated and a loop with a fresh id becomes the only live one |
| SoundGenerator.SetMasterVolume | frontend/src/hooks/useSoundManager.js:312-316 | with a context the master gain becomes the given value, unclamped; before init nothing changes; the registry is never touched |
| SoundGenerator.EffectiveGain | frontend/src/hooks/useSoundManager.js:83-88 | a voice's level is its target scaled by the master gain: silent under a zero master gain, non-negative for non-negative gains |
| SoundGenerator.VolumeScalesAllVoices | frontend/src/hooks/useSoundManager.js:312-316 | after a volume change each registered voice is the same voice at its target × the new volume |
| SoundGenerator.ThunderShape | frontend/src/hooks/useSoundManager.js:150-188 | the thunder envelope has three points in time order, starts silent, never exceeds 0.8, and its last point falls on the 3 s stop of both sources |
| SoundGenerator.CreateThunder | frontend/src/hooks/useSoundManager.js:146-189 | a clap never touches the registry or bird loops, and sounds exactly when a context exists or can be created |
| SoundGenerator.ChirpShapeOrdered | frontend/src/hooks/useSoundManager.js:224-239 | the chirp envelope is in time order, never exceeds 0.03, and ends before the oscillators stop |
| SoundGenerator.NoteCount | frontend/src/hooks/useSoundManager.js:244 | a song has 2 to 4 notes |
| SoundGenerator.MakeChirp | frontend/src/hooks/useSoundManager.js:211-246 | note i starts between 80i and 140i ms with a base frequency in [1200, 2000) Hz |
| SoundGenerator.Song | frontend/src/hooks/useSoundManager.js:243-248 | 2 to 4 notes, the first at 0 ms, note i between 80i and 140i ms, all pitched in [1200, 2000) Hz |
| SoundGenerator.NextChirpDelay | frontend/src/hooks/useSoundManager.js:256 | the next chirp timer waits between 3000 and 8000 ms |
| SoundGenerator.FirstSong | frontend/src/hooks/useSoundManager.js:267-272 | the 2 s opening timer sings and reschedules exactly when its loop is live |
| SoundGenerator.ChirpTimes | frontend/src/hooks/useSoundManager.js:251-264 | the chirp timers of a live loop fire at the start time and then 3 to 8 s apart, so timer i fires between 3i and 8i seconds after the start |
| SoundGenerator.BirdTimeline | frontend/src/hooks/useSoundManager.js:251-272 | a bird loop's opening song comes 2 s after creation, every later chirp timer at least 5 s after creation, and consecutive timers 3 to 8 s apart |
| SoundGenerator.ChirpTimer | frontend/src/hooks/useSoundManager.js:252-264 | a chirp timer sings exactly when its loop is live and the draw exceeds 0.3, and reschedules (3-8 s) exactly when live |
| SoundManager.Mount | frontend/src/hooks/useSoundManager.js:326-344 | the hook starts enabled, at clear weather, with nothing registered or armed |
| SoundManager.Recipe | frontend/src/hooks/useSoundManager.js:367-415 | no key twice; birds exactly for clear and the default branch (tornado); rain exactly for rain, drizzle, heavy rain and thunderstorm, at 0.9 for heavy rain, 0.8 for thunderstorm and 0.5 otherwise; wind exactly for heavy rain, thunderstorm, snow, heavy snow, fog and cloudy skies above 5 m/s, at 0.2, 0.3, 0.4, 0.4, 0.1 and speed/30; nothing exactly for cloudy skies with wind ≤ 5 |
| SoundManager.Start | frontend/src/hooks/useSoundManager.js:367-415 | starting one recipe entry registers its voice under its key and leaves the other keys unchanged |
| SoundManager.StartAll | frontend/src/hooks/useSoundManager.js:367-415 | starting a recipe realises every entry under its key, leaves other keys unchanged and allocates only fresh bird loops |
| SoundManager.StartAllOnEmpty | frontend/src/hooks/useSoundManager.js:356-415 | after the stop-all, the registry holds exactly the recipe's voices |
| SoundManager.ThunderPeriod | frontend/src/hooks/useSoundManager.js:387 | the thunder interval period, drawn once, lies in [5000, 15000) ms |
| SoundManager.ThunderTimers | frontend/src/hooks/useSoundManager.js:383-392 | exactly a thunderstorm arms two timers: the one-off strike at 1000 ms and the interval with the drawn period, and the strike always comes before the first tick |
| SoundManager.Play | frontend/src/hooks/useSoundManager.js:347-418 | a no-op while disabled; otherwise the registry holds exactly the recipe, thunder is armed exactly for thunderstorms with one more pending clap and a period longer than the 1 s strike delay, the weather is recorded, and the invariant is kept |
| SoundManager.HandleWeatherChange | frontend/src/hooks/useSoundManager.js:421-429 | clear at night only empties the registry, keeping the current weather and the thunder interval; anything else plays |
| SoundManager.Toggle | frontend/src/hooks/useSoundManager.js:432-447 | turning off empties the registry, kills every bird loop and disarms the interval but not pending claps; turning on replays the current weather's recipe at wind 0 |
| SoundManager.AdjustVolume | frontend/src/hooks/useSoundManager.js:450-453 | the volume is stored and forwarded unclamped; nothing playing is restarted |
| SoundManager.ResumeAudio | frontend/src/hooks/useSoundManager.js:456-464 | the first call initialises the generator; the registry and timers are untouched |
| SoundManager.Unmount | frontend/src/hooks/useSoundManager.js:336-343 | clean-up leaves nothing registered, no live loop and no interval |
| SoundManager.ThunderTick | frontend/src/hooks/useSoundManager.js:383-386 | an interval tick claps only while the current weather is a thunderstorm and the draw exceeds 0.5, always then when audio works, and never touches the registry |
| SoundManager.InitialStrike | frontend/src/hooks/useSoundManager.js:390-392 | the one-second clap fires whatever the weather or the enabled flag |
| SoundManager.BirdTimer | frontend/src/hooks/useSoundManager.js:252-264 | only the loop of the registered bird voice can sing or reschedule |
| SoundManager.ToggleOffSilences | frontend/src/hooks/useSoundManager.js:436-441 | after switching off: empty registry, no interval, and every bird timer is inert |
| SoundManager.DisabledIgnoresWeather | frontend/src/hooks/useSoundManager.js:348 | while disabled, any change other than a clear night leaves the state exactly as it was |
| SoundManager.CloudyReplayIsSilent | frontend/src/hooks/useSoundManager.js:445 | re-enabling in cloudy weather replays at wind speed 0 and registers nothing |
| SoundManager.OldBirdLoopStops | frontend/src/hooks/useSoundManager.js:251-275 | after any weather change, the previously registered bird loop neither sings nor reschedules |
| SoundManager.LightRainByDay | frontend/src/hooks/useSoundManager.js:368-371 | any light-rain code (5xx other than 502-504) by day registers only rain at 0.5 and arms no thunder |
| SoundManager.ThunderstormByDay | frontend/src/hooks/useSoundManager.js:378-392 | any 2xx code registers rain 0.8 and wind 0.3, arms the interval and queues the one-second clap |
| SoundManager.InitialStrikeOutlivesToggleOff | frontend/src/hooks/useSoundManager.js:390-392 | switching off right after a thunderstorm starts still lets the one-second clap sound |
| SoundManager.ThunderOutlivesClearNight | frontend/src/hooks/useSoundManager.js:423-426 | after a thunderstorm then a clear night, the registry is empty but the interval is armed and a tick with draw 0.9 claps |
| SoundManager.HandleWeatherChangeCorrected | frontend/src/hooks/useSoundManager.js:421-429 | the corrected clear-night branch also disarms the thunder interval |
| SoundManager.CorrectedClearNightIsSilent | frontend/src/hooks/useSoundManager.js:421-429 | with the correction a clear night has no voices and no interval, and every bird timer is inert |
| SoundManager.VolumeReachesPlayingVoices | frontend/src/hooks/useSoundManager.js:450-453 | a volume change sets every playing voice's level to its target × the new volume, without replacing the voice |

## Left out

- Web Audio graph construction: noise-buffer filling, node `connect`/`start`, and ramps on the audio clock. These are browser APIs. Only the parameter values they are given are modelled.
- `resume()` and the context's suspended state: this is platform state. `ResumeAudio` models only the first-call initialisation.
- Errors that `init` and `stopSound` catch and swallow. Audio support appears only as the `available` flag.
- `SOUND_URLS` is never used. The `nodes.interval` branch of `stopSound` matches no registered entry.
- `async`/`await` interleavings. Each transition is one atomic step, so the 300 ms settle delay is not modelled. Nor is a weather change arriving inside that delay.
- React closure semantics. In the running app, `toggleSound`'s captured `playWeatherSound` still sees sound as disabled. A later re-render then re-sends the weather with its real wind speed. The model instead replays sequentially with wind speed 0.
- `stopAll` iterates the registry in insertion order. The model stops keys in the fixed order rain, wind, birds. The final registry is the same; only the order of the retired log may differ.
- Decimal.ToDecimal: does not model the exponent notation JavaScript uses for integers of magnitude 10^21 and above, or non-integer codes. Condition ids are three-digit integers.
- `requestAnimationFrame` scheduling. Each frame is an explicit `OnFrame` step at a given time.
- CSS class names, background gradients, star, cloud, wind-streak and icon-flake random placement, and temperature digit splitting. These only affect presentation.
- HTTP proxy code, fetch glue, forecast formatting and the search and sound-control widgets. They are outside the core.

## Findings

| source | as written | input that shows it | evidently intended | confidence | as-written member | corrected member |
|---|---|---|---|---|---|---|
| frontend/src/hooks/useSoundManager.js:423-426 | a clear night only stops the registered voices; the thunder interval stays armed and `currentWeatherRef` stays 'thunderstorm' | a thunderstorm, then a clear report with a night icon, then an interval tick with draw > 0.5 | a clear night is silent, with no thunder interval armed | high (not executed) | SoundManager.HandleWeatherChange, shown by SoundManager.ThunderOutlivesClearNight | SoundManager.HandleWeatherChangeCorrected, proved by SoundManager.CorrectedClearNightIsSilent |
| frontend/src/components/ui/AnimatedTemperature.js:11 | when the value returns to the count's start mid-animation, the clean-up cancels the frame and the early return starts nothing | value 10, then 20, a frame at 750 ms, then 10 again: 19 stays displayed with `isAnimating` set | the display comes to rest on the current value | high (not executed) | Temperature.OnValue, shown by Temperature.StuckWhenValueReturns | Temperature.OnValueCorrected, proved by Temperature.FrameKeepsSettled and Temperature.CorrectedSettlesWhenValueReturns |
