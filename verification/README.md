# sonos-fade alarm, modelled in Dafny

A model of the volume ramp-up alarm of `alarm.py` (the `Alarm` class run
against a speaker). Given a start volume, a maximum volume, a ramp duration and
a URI, `Alarm.start`:

1. looks up a display title among the speaker's favourite radio stations, but
   only when the URI starts with `x-sonosapi-stream:`;
2. sets the speaker's volume to the start volume, stops playback and plays the
   URI under that title;
3. computes the sleep interval `duration / (max - start)`;
4. for each of `range(max - start)` pauses for the interval and raises the
   volume by one.

The speaker is reduced to what the alarm can observe of it: its volume and its
favourite-stations reply. `FakeSpeaker` is the reference for that state: the
volume getter returns what the setter last stored, and `stop`/`play_uri` change
nothing readable. `Start` is a pure function returning a `Run`: the trace of
events (`GetFavorites`, `SetVolume`, `Stop`, `PlayUri`, `Sleep`), the speaker
afterwards, and the exception raised, if any. A raised exception keeps the
events issued before it.

Files:
- `wrappers.dfy`: `Option` and `Result`.
- `speakers.dfy`: favourite records, the favourites reply, the speaker state, `Fake()`.
- `alarms.dfy`: the alarm configuration and its operations: `IsSonosApi`,
  `VolumeIncrease`, `SleepInterval`, `FirstTitle`/`GetTitle`, `Ramp`, `Start`.
- `alarm_properties.dfy`: lemmas about `Start`.

Edge behaviour fixed by the model, following the code:
- `max_volume == start_volume`: `sleep_interval` raises `ZeroDivisionError`, but
  only after the set-volume, stop and play commands have been issued. The
  configuration is not validated before the speaker is commanded; the model
  follows the code.
- `max_volume > start_volume` with a negative duration, while the quotient is
  inside the float range: the interval is negative, and the first `sleep` of
  the loop raises (`ValueError` in Python 3, `IOError` in Python 2) after set
  volume, stop and play, before any increment.
- `max_volume < start_volume`: nothing raises, whatever the interval's sign.
  `range` of a negative count is empty, so `sleep` is never called, nothing is
  incremented, and the volume stays at the start volume.

## Model

| member | source | states |
|---|---|---|
| AlarmProperties.IsSonosApiIffPrefixed | alarm.py:36-37 | a URI is a streaming-favourite URI exactly when it is `x-sonosapi-stream:` followed by some string |
| Alarms.VolumeIncrease | alarm.py:39-40 | the step count is the number of increments that take the start volume to the maximum; it is zero or negative when the maximum does not exceed the start |
| Alarms.SleepInterval | alarm.py:42-43 | the interval computation raises exactly when the maximum equals the start volume; otherwise the interval times the step count is the whole duration |
| Alarms.FirstTitle | alarm.py:47-50 | the title of the first favourite whose URI equals the alarm's URI, and `''` when no favourite has it |
| AlarmProperties.FirstTitleFindsMatch | alarm.py:47-49 | when some favourite has the URI, there is a first such favourite and its title is returned |
| Alarms.GetTitle | alarm.py:45-50 | a reply without a `'favorites'` key yields `''`; otherwise the first matching favourite's title, or `''` when none matches |
| Alarms.Ramp | alarm.py:63-65 | `range(n)` runs `max(n, 0)` iterations; each one pauses for the interval and then writes the volume one above the previous one, so the volume ends `max(n, 0)` above where it began and the favourites are untouched |
| AlarmProperties.RampLevels | alarm.py:63-65 | the `k`-th volume written by the ramp is the starting volume plus `k + 1`, and there are exactly `max(n, 0)` writes |
| AlarmProperties.PreludeLevels | alarm.py:58-60 | before the ramp the volume is written exactly once, to the start volume |
| AlarmProperties.StartCommandOrder | alarm.py:52-65 | `start` issues the favourites query only for streaming URIs, then set volume to the start volume, stop, play the URI with the resolved title, and after that only pauses and volume writes |
| AlarmProperties.StartQueriesOnlyStreams | alarm.py:53-56 | the favourites are queried if and only if the URI is a streaming-favourite URI; any other URI is played with the title `''` |
| AlarmProperties.StartRampsToMax | alarm.py:58-65 | with max above start and a duration that is not negative, nothing raises; the volume is written `max - start + 1` times, the `k`-th write sets `start + k`, and the speaker ends at the maximum |
| AlarmProperties.StartRampAlternates | alarm.py:62-65 | with max above start and a duration that is not negative, after the play command pauses and volume writes alternate, starting with a pause, and every pause lasts `duration / (max - start)` |
| AlarmProperties.StartRaisesOnNegativeDuration | alarm.py:58-64 | with max above start and a negative duration, the first `sleep` raises after set volume, stop and play have been issued, and no pause or increment happens |
| AlarmProperties.StartRaisesWhenLevel | alarm.py:42-62 | with max equal to start, `ZeroDivisionError` is raised after set volume, stop and play have been issued, and no increment happens |
| AlarmProperties.StartSkipsRampWhenBelow | alarm.py:62-65 | with max below start nothing raises, no increment happens, and the volume stays at the start volume |
| AlarmProperties.StartVolumeIsLastWritten | alarm.py:73-79 | for every configuration, the volume read back after `start` is the last volume written, and the favourites are unchanged |
| AlarmProperties.FakeSpeakerPlaysUntitled | alarm.py:88-89 | on a `FakeSpeaker`, whose favourites are empty, every URI is played with the title `''` |
| AlarmProperties.TenToThirteenScenario | alarm.py:52-65 | start 10, max 13, duration 30, `http://x` on a `FakeSpeaker`: set 10, stop, play untitled, then three pauses of 30/3 seconds, each followed by one increment (11, 12, 13) |
| AlarmProperties.RadioStationScenario | alarm.py:45-60 | a streaming URI stored as a favourite is played under its stored title; an unknown one of the same scheme is still looked up, and is played with `''` |

## Left out

- The interval's numeric value and the time `sleep` takes. The pause is a `Sleep` event carrying the exact fraction `duration / (max - start)`. Python 2 floors this integer division and Python 3 produces a float; neither rounding is modelled. The model raises the `sleep` error exactly when the fraction is negative.
- Alarms.SleepInterval: fails only for the zero divisor. The `OverflowError` that Python 3's `/` raises when the quotient is beyond the float range (about 1.8e308) is not modelled, because the model keeps the interval as an exact fraction and has no float range.
- AlarmProperties.StartRampsToMax: its "nothing raises" holds only inside the platform's timer range. The `OverflowError` that `sleep` raises for an interval too large for its timer (above about 9.2e9 seconds in Python 3, or too large to convert to a float in Python 2) is not modelled, and neither is the `OverflowError` from `/` for a quotient beyond the float range. Nor is Python 2's `range(n)`, which builds a list and raises `OverflowError` or `MemoryError` for a very large step count. All of these need a float, timer or memory range that the model's exact fraction and unbounded integers do not have.
- AlarmProperties.StartSkipsRampWhenBelow: its "nothing raises" holds only when the quotient at the division is inside the float range. The `OverflowError` from `/` is not modelled, as for `Alarms.SleepInterval`.
- AlarmProperties.StartRaisesOnNegativeDuration: its `SleepLengthError` matches the source only while the quotient is inside the float range. For a quotient beyond it, Python 3's `/` and Python 2's `sleep` raise `OverflowError` instead. A quotient that underflows to `-0.0` in Python 3 (for example `-1 / 10**324`) is not refused by `sleep`, so the ramp runs. The exact fraction has neither limit.
- Reads of the volume are not events. `speaker.volume += 1` is modelled as writing the read value plus one, as on `FakeSpeaker`. A real speaker's clamping of the volume to its range, or a change made by another client between the read and the write, is not modelled.
- Favourite records always have a `uri` and a `title`. The `KeyError` raised by a record missing either key is not modelled.
- The real device client (`soco.SoCo`) and its network failures are not modelled. The speaker is the abstract state above.
- The `print` output of `FakeSpeaker` is not modelled. The trace records the same commands instead.
- Argument parsing (`docopt`), the `int(...)` conversions, the usage text and `main` are not modelled. `Alarm` takes the already-converted integers.
