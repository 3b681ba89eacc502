/** The `Alarm` class of alarm.py: resolve a title, prime the speaker, start
    playback, then raise the volume one step at a time. */
module Alarms {
  import opened Wrappers
  import opened Speakers

  /** URIs of this scheme name a favourite radio station and need a title. */
  const StreamPrefix: string := "x-sonosapi-stream:"

  /** The alarm's configuration, as handed to `Alarm.__init__`. */
  datatype Alarm = Alarm(startVolume: int, maxVolume: int, duration: int, uri: string)

  /** An exact quotient `num / den`; the model keeps the sleep interval as a
      fraction instead of a Python 2 integer or a Python 3 float. It is not
      normalised: `Fraction(30, 3)` and `Fraction(10, 1)` are different
      values, and a pause always carries `Fraction(duration, max - start)`. */
  datatype Fraction = Fraction(num: int, den: int) {

    /** The quotient is below zero. */
    predicate IsNegative()
    {
      (num < 0 && den > 0) || (num > 0 && den < 0)
    }
  }

  /** The exceptions `start` can raise: the division in `sleep_interval`,
      and `sleep` refusing a negative length (`ValueError` in Python 3,
      `IOError` in Python 2). */
  datatype Error = ZeroDivisionError | SleepLengthError

  /** One observable step of `start`: a command to the speaker or a pause. */
  datatype Event =
    | GetFavorites
    | SetVolume(level: int)
    | Stop
    | PlayUri(uri: string, title: string)
    | Sleep(seconds: Fraction)

  /** The outcome of `start`: the steps taken, the speaker left behind, and
      the exception raised, if any. */
  datatype Run = Run(trace: seq<Event>, speaker: Speaker, raised: Option<Error>)

  /** `_is_sonosapi`: the URI starts with the streaming-favourite scheme. */
  predicate IsSonosApi(uri: string)
  {
    |StreamPrefix| <= |uri| && uri[..|StreamPrefix|] == StreamPrefix
  }

  /** `volume_increase`: the number of one-step increments from the start to
      the maximum volume; zero or negative when max does not exceed start. */
  function VolumeIncrease(a: Alarm): (n: int)
    ensures a.startVolume + n == a.maxVolume
  {
    a.maxVolume - a.startVolume
  }

  /** `sleep_interval`: the ramp duration divided by the number of steps. It
      raises exactly when the two volumes coincide; otherwise that many
      intervals add up to the whole duration. The quotient is exact, so the
      float overflow of Python 3's `/` has no counterpart here. */
  function SleepInterval(a: Alarm): (r: Result<Fraction, Error>)
    ensures r.Failure? <==> a.maxVolume == a.startVolume
    ensures r.Success? ==> r.value.den != 0 && VolumeIncrease(a) * r.value.num == a.duration * r.value.den
  {
    var n := VolumeIncrease(a);
    if n == 0 then Failure(ZeroDivisionError) else Success(Fraction(a.duration, n))
  }

  /** `i` is the position of the first favourite whose URI is `uri`. */
  predicate IsFirstMatch(favs: seq<Favorite>, uri: string, i: int)
  {
    0 <= i < |favs| && favs[i].uri == uri && forall j :: 0 <= j < i ==> favs[j].uri != uri
  }

  /** No favourite has the URI `uri`. */
  predicate NoMatch(favs: seq<Favorite>, uri: string)
  {
    forall j :: 0 <= j < |favs| ==> favs[j].uri != uri
  }

  /** The loop of `get_title`: the title of the first favourite whose URI is
      `uri`, or the empty string when none has it. */
  function FirstTitle(favs: seq<Favorite>, uri: string): (title: string)
    ensures NoMatch(favs, uri) ==> title == ""
    ensures forall i :: IsFirstMatch(favs, uri, i) ==> title == favs[i].title
  {
    if |favs| == 0 then ""
    else if favs[0].uri == uri then favs[0].title
    else
      var rest := FirstTitle(favs[1..], uri);
      assert forall i :: 1 <= i && IsFirstMatch(favs, uri, i) ==> IsFirstMatch(favs[1..], uri, i - 1);
      rest
  }

  /** `get_title`: look the alarm's URI up in the speaker's favourites; a
      reply without a `'favorites'` key behaves as an empty list. */
  function GetTitle(st: Stations, uri: string): (title: string)
    ensures st.favorites.None? ==> title == ""
    ensures NoMatch(FavoriteList(st), uri) ==> title == ""
    ensures forall i :: IsFirstMatch(FavoriteList(st), uri, i) ==> title == FavoriteList(st)[i].title
  {
    FirstTitle(FavoriteList(st), uri)
  }

  /** Python's `len(range(n))`: a negative count gives no iterations. */
  function RangeLength(n: int): nat
  {
    if n > 0 then n else 0
  }

  /** The `i`-th step of a ramp that starts from volume `base`: a pause,
      then the volume one above the previous one. */
  function RampEvent(interval: Fraction, base: int, i: nat): Event
  {
    if i % 2 == 0 then Sleep(interval) else SetVolume(base + i / 2 + 1)
  }

  /** The loop `for _ in range(n): sleep(interval); speaker.volume += 1`,
      returning the steps taken and the speaker afterwards. Each iteration
      pauses and then writes the volume it read plus one, so after `k`
      iterations the volume is `k` above where it began. */
  function Ramp(s: Speaker, interval: Fraction, n: int): (r: (seq<Event>, Speaker))
    ensures |r.0| == 2 * RangeLength(n)
    ensures forall i :: 0 <= i < |r.0| ==> r.0[i] == RampEvent(interval, s.volume, i)
    ensures r.1.volume == s.volume + RangeLength(n)
    ensures r.1.stations == s.stations
    decreases n
  {
    if n <= 0 then ([], s)
    else
      var s1 := s.(volume := s.volume + 1);
      var (rest, s2) := Ramp(s1, interval, n - 1);
      var steps := [Sleep(interval), SetVolume(s1.volume)] + rest;
      assert forall i :: 2 <= i < |steps| ==> steps[i] == rest[i - 2];
      (steps, s2)
  }

  /** The title `start` passes to `play_uri`: only streaming-favourite URIs
      are looked up. */
  function PlayTitle(a: Alarm, s: Speaker): string
  {
    if IsSonosApi(a.uri) then GetTitle(s.stations, a.uri) else ""
  }

  /** The steps of `start` before the ramp: the favourites query (only for
      streaming-favourite URIs), then set volume, stop, play. */
  function Prelude(a: Alarm, s: Speaker): seq<Event>
  {
    Lookup(a) + [SetVolume(a.startVolume), Stop, PlayUri(a.uri, PlayTitle(a, s))]
  }

  /** The favourites query `start` issues first, present only for
      streaming-favourite URIs. */
  function Lookup(a: Alarm): seq<Event>
  {
    if IsSonosApi(a.uri) then [GetFavorites] else []
  }

  /** `start`: prime the speaker, play the URI, compute the interval (which
      may raise after the speaker has already been commanded), then ramp. The
      first `sleep` of the loop raises when the interval is negative, before
      any increment; with no iterations `sleep` is never called. */
  function Start(a: Alarm, s: Speaker): (r: Run)
  {
    var primed := s.(volume := a.startVolume);
    var prelude := Prelude(a, s);
    match SleepInterval(a)
    case Failure(e) => Run(prelude, primed, Some(e))
    case Success(interval) =>
      if RangeLength(VolumeIncrease(a)) > 0 && interval.IsNegative() then
        Run(prelude, primed, Some(SleepLengthError))
      else
        var (ramp, last) := Ramp(primed, interval, VolumeIncrease(a));
        Run(prelude + ramp, last, None)
  }
}
