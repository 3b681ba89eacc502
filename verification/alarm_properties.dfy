/** What `Alarm.start` promises: the order of its commands, the volumes it
    writes, where it raises, and what a `FakeSpeaker` reads back. */
module AlarmProperties {
  import opened Wrappers
  import opened Speakers
  import opened Alarms

  /** The volume levels written, in the order they were written. */
  function Levels(t: seq<Event>): seq<int>
  {
    if |t| == 0 then []
    else (if t[0].SetVolume? then [t[0].level] else []) + Levels(t[1..])
  }

  /** `Levels` distributes over concatenation. */
  lemma {:induction false} LevelsAppend(t: seq<Event>, u: seq<Event>)
    ensures Levels(t + u) == Levels(t) + Levels(u)
    decreases |t|
  {
    if |t| == 0 {
      assert t + u == u;
    } else {
      var h: seq<int> := if t[0].SetVolume? then [t[0].level] else [];
      assert (t + u)[0] == t[0];
      assert (t + u)[1..] == t[1..] + u;
      assert Levels(t + u) == h + Levels(t[1..] + u);
      LevelsAppend(t[1..], u);
      assert Levels(t) == h + Levels(t[1..]);
    }
  }

  /** The ramp writes the volumes one above its starting volume, two above,
      and so on, once per iteration of `range(n)`. */
  lemma {:induction false} RampLevels(s: Speaker, interval: Fraction, n: int)
    ensures |Levels(Ramp(s, interval, n).0)| == RangeLength(n)
    ensures forall k :: 0 <= k < RangeLength(n) ==> Levels(Ramp(s, interval, n).0)[k] == s.volume + k + 1
    decreases n
  {
    if n > 0 {
      var s1 := s.(volume := s.volume + 1);
      var rest := Ramp(s1, interval, n - 1).0;
      RampLevels(s1, interval, n - 1);
      var head: seq<Event> := [Sleep(interval), SetVolume(s1.volume)];
      assert Ramp(s, interval, n).0 == head + rest;
      LevelsAppend(head, rest);
      assert Levels(head) == [s.volume + 1] by {
        assert head[1..] == [SetVolume(s1.volume)];
        assert head[1..][1..] == [];
      }
    }
  }

  /** `_is_sonosapi` holds exactly of the URIs that extend the scheme prefix. */
  lemma IsSonosApiIffPrefixed(uri: string)
    ensures IsSonosApi(uri) <==> exists rest :: uri == StreamPrefix + rest
  {
    if IsSonosApi(uri) {
      var rest := uri[|StreamPrefix|..];
      assert uri == StreamPrefix + rest;
    }
    if exists rest :: uri == StreamPrefix + rest {
      var rest :| uri == StreamPrefix + rest;
      assert uri[..|StreamPrefix|] == StreamPrefix;
    }
  }

  /** When some favourite has the URI, a first such favourite exists, and
      `get_title` returns its title. */
  lemma {:induction false} FirstTitleFindsMatch(favs: seq<Favorite>, uri: string, m: int)
    requires 0 <= m < |favs| && favs[m].uri == uri
    ensures exists i :: IsFirstMatch(favs, uri, i) && FirstTitle(favs, uri) == favs[i].title
    decreases |favs|
  {
    if favs[0].uri == uri {
      assert IsFirstMatch(favs, uri, 0);
    } else {
      FirstTitleFindsMatch(favs[1..], uri, m - 1);
      var i :| IsFirstMatch(favs[1..], uri, i) && FirstTitle(favs[1..], uri) == favs[1..][i].title;
      assert IsFirstMatch(favs, uri, i + 1);
    }
  }

  /** Commands are issued in the order set volume, stop, play, preceded by
      the favourites query only for streaming-favourite URIs, and followed
      only by pauses and volume writes. */
  lemma StartCommandOrder(a: Alarm, s: Speaker)
    ensures var r := Start(a, s); var p := |Lookup(a)|;
      && |r.trace| >= p + 3
      && (IsSonosApi(a.uri) ==> r.trace[0] == GetFavorites)
      && r.trace[p] == SetVolume(a.startVolume)
      && r.trace[p + 1] == Stop
      && r.trace[p + 2] == PlayUri(a.uri, PlayTitle(a, s))
      && forall i :: p + 3 <= i < |r.trace| ==> r.trace[i].Sleep? || r.trace[i].SetVolume?
  {
  }

  /** The favourites are queried, and the title looked up, only for
      streaming-favourite URIs; any other URI is played with an empty title. */
  lemma StartQueriesOnlyStreams(a: Alarm, s: Speaker)
    ensures GetFavorites in Start(a, s).trace <==> IsSonosApi(a.uri)
    ensures !IsSonosApi(a.uri) ==> PlayUri(a.uri, "") in Start(a, s).trace
  {
  }

  /** With `max_volume > start_volume` and a duration that is not negative,
      the run completes: the volume is written `max - start + 1` times, the
      `k`-th write sets `start + k`, and the speaker ends at `max_volume`. */
  lemma StartRampsToMax(a: Alarm, s: Speaker)
    requires a.maxVolume > a.startVolume
    requires a.duration >= 0
    ensures var r := Start(a, s);
      && r.raised == None
      && r.speaker.volume == a.maxVolume
      && |r.trace| == |Lookup(a)| + 3 + 2 * (a.maxVolume - a.startVolume)
      && |Levels(r.trace)| == a.maxVolume - a.startVolume + 1
      && forall k :: 0 <= k < |Levels(r.trace)| ==> Levels(r.trace)[k] == a.startVolume + k
  {
    var pre := Prelude(a, s);
    var interval := Fraction(a.duration, a.maxVolume - a.startVolume);
    var primed := s.(volume := a.startVolume);
    var ramp := Ramp(primed, interval, VolumeIncrease(a)).0;
    assert Start(a, s).trace == pre + ramp;
    LevelsAppend(pre, ramp);
    PreludeLevels(a, s);
    RampLevels(primed, interval, VolumeIncrease(a));
  }

  /** With `max_volume > start_volume` and a duration that is not negative,
      pauses and volume writes alternate after the play command, starting
      with a pause, and every pause lasts `duration / (max - start)`. */
  lemma StartRampAlternates(a: Alarm, s: Speaker)
    requires a.maxVolume > a.startVolume
    requires a.duration >= 0
    ensures var r := Start(a, s); var p := |Lookup(a)|;
      forall i :: p + 3 <= i < |r.trace| ==>
        && (r.trace[i].Sleep? <==> (i - p) % 2 == 1)
        && (r.trace[i].Sleep? ==> r.trace[i].seconds == Fraction(a.duration, a.maxVolume - a.startVolume))
  {
    var interval := Fraction(a.duration, a.maxVolume - a.startVolume);
    var ramp := Ramp(s.(volume := a.startVolume), interval, VolumeIncrease(a)).0;
    assert Start(a, s).trace == Prelude(a, s) + ramp;
    assert |Prelude(a, s)| == |Lookup(a)| + 3;
  }

  /** With `max_volume > start_volume` and a negative duration, the interval
      is negative and the first `sleep` raises: after set volume, stop and
      play have been issued, and before any pause or increment. */
  lemma StartRaisesOnNegativeDuration(a: Alarm, s: Speaker)
    requires a.maxVolume > a.startVolume
    requires a.duration < 0
    ensures var r := Start(a, s); var p := |Lookup(a)|;
      && r.raised == Some(SleepLengthError)
      && |r.trace| == p + 3
      && r.trace[p] == SetVolume(a.startVolume)
      && r.trace[p + 1] == Stop
      && r.trace[p + 2] == PlayUri(a.uri, PlayTitle(a, s))
      && Levels(r.trace) == [a.startVolume]
      && r.speaker.volume == a.startVolume
  {
    assert Start(a, s).trace == Prelude(a, s);
    PreludeLevels(a, s);
  }

  /** The prelude writes the volume once, setting it to `start_volume`. */
  lemma PreludeLevels(a: Alarm, s: Speaker)
    ensures Levels(Prelude(a, s)) == [a.startVolume]
  {
    var lookup := Lookup(a);
    var cmds: seq<Event> := [SetVolume(a.startVolume), Stop, PlayUri(a.uri, PlayTitle(a, s))];
    assert Prelude(a, s) == lookup + cmds;
    LevelsAppend(lookup, cmds);
    assert Levels(lookup) == [] by {
      if |lookup| == 1 { assert lookup[1..] == []; }
    }
    assert Levels(cmds) == [a.startVolume] by {
      var c1 := cmds[1..];
      var c2 := c1[1..];
      assert c2[1..] == [];
      assert Levels(c2) == [];
      assert Levels(c1) == [];
    }
  }

  /** With `max_volume == start_volume`, `sleep_interval` divides by zero, but
      only after the volume has been set, playback stopped and the URI played;
      no increment happens. */
  lemma StartRaisesWhenLevel(a: Alarm, s: Speaker)
    requires a.maxVolume == a.startVolume
    ensures var r := Start(a, s); var p := |Lookup(a)|;
      && r.raised == Some(ZeroDivisionError)
      && |r.trace| == p + 3
      && r.trace[p] == SetVolume(a.startVolume)
      && r.trace[p + 1] == Stop
      && r.trace[p + 2] == PlayUri(a.uri, PlayTitle(a, s))
      && Levels(r.trace) == [a.startVolume]
      && r.speaker.volume == a.startVolume
  {
    assert Start(a, s).trace == Prelude(a, s);
    StartCommandOrder(a, s);
    PreludeLevels(a, s);
  }

  /** With `max_volume < start_volume` nothing raises, whatever the
      interval's sign: `range` of a negative count is empty, so `sleep` is
      never called, nothing is incremented, and the volume stays at
      `start_volume`. */
  lemma StartSkipsRampWhenBelow(a: Alarm, s: Speaker)
    requires a.maxVolume < a.startVolume
    ensures var r := Start(a, s); var p := |Lookup(a)|;
      && r.raised == None
      && |r.trace| == p + 3
      && Levels(r.trace) == [a.startVolume]
      && r.speaker.volume == a.startVolume
  {
    var pre := Prelude(a, s);
    var interval := Fraction(a.duration, a.maxVolume - a.startVolume);
    assert Ramp(s.(volume := a.startVolume), interval, VolumeIncrease(a)).0 == [];
    assert pre + [] == pre;
    assert Start(a, s).trace == pre;
    PreludeLevels(a, s);
  }

  /** Whatever the configuration, the volume the speaker is left at is the
      last volume written, as `FakeSpeaker`'s getter returns its setter's
      value; the favourites are never altered. */
  lemma StartVolumeIsLastWritten(a: Alarm, s: Speaker)
    ensures var r := Start(a, s);
      && |Levels(r.trace)| >= 1
      && r.speaker.volume == Levels(r.trace)[|Levels(r.trace)| - 1]
      && r.speaker.stations == s.stations
  {
    if a.maxVolume > a.startVolume && a.duration >= 0 {
      StartRampsToMax(a, s);
    } else if a.maxVolume > a.startVolume {
      StartRaisesOnNegativeDuration(a, s);
    } else if a.maxVolume == a.startVolume {
      StartRaisesWhenLevel(a, s);
    } else {
      StartSkipsRampWhenBelow(a, s);
    }
  }

  /** A `FakeSpeaker` has no favourites, so every URI, streaming favourite or
      not, is played with an empty title. */
  lemma FakeSpeakerPlaysUntitled(a: Alarm)
    ensures PlayUri(a.uri, "") in Start(a, Fake()).trace
    ensures Start(a, Fake()).speaker.stations == Fake().stations
  {
  }

  /** The ten-to-thirteen ramp over thirty seconds on a `FakeSpeaker`: set 10,
      stop, play with no title, then three ten-second pauses each followed by
      one increment. */
  lemma TenToThirteenScenario()
    ensures Start(Alarm(10, 13, 30, "http://x"), Fake()) == Run(
      [SetVolume(10), Stop, PlayUri("http://x", ""),
       Sleep(Fraction(30, 3)), SetVolume(11),
       Sleep(Fraction(30, 3)), SetVolume(12),
       Sleep(Fraction(30, 3)), SetVolume(13)],
      Speaker(13, Stations(Some([]))),
      None)
  {
  }

  /** A streaming-favourite URI stored among the speaker's favourites is
      looked up and played under its stored title; an unknown one of the
      same scheme is looked up too, and played with an empty title. */
  lemma RadioStationScenario(s: Speaker)
    requires s.stations == Stations(Some([Favorite("x-sonosapi-stream:123", "Radio X")]))
    ensures var r := Start(Alarm(10, 11, 120, "x-sonosapi-stream:123"), s);
      && r.trace[0] == GetFavorites
      && r.trace[3] == PlayUri("x-sonosapi-stream:123", "Radio X")
    ensures var r := Start(Alarm(10, 11, 120, "x-sonosapi-stream:999"), s);
      && r.trace[0] == GetFavorites
      && r.trace[3] == PlayUri("x-sonosapi-stream:999", "")
  {
  }
}
