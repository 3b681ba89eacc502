/** The speaker an alarm drives, reduced to the state the alarm observes.

    `FakeSpeaker` in alarm.py is the reference for this state: its volume
    setter stores the value and its getter returns it, `stop` and `play_uri`
    change nothing the alarm can read back, and its favourite stations reply
    holds an empty list. */
module Speakers {
  import opened Wrappers

  /** One favourite radio station: the record `{'uri': ..., 'title': ...}`. */
  datatype Favorite = Favorite(uri: string, title: string)

  /** The reply of `get_favorite_radio_stations()`; `favorites` is `None`
      when the reply has no `'favorites'` key. */
  datatype Stations = Stations(favorites: Option<seq<Favorite>>)

  /** What the alarm can observe of a speaker: its volume and its favourites. */
  datatype Speaker = Speaker(volume: int, stations: Stations)

  /** The favourites list as the alarm reads it: a missing key reads as empty. */
  function FavoriteList(st: Stations): seq<Favorite>
  {
    st.favorites.GetOr([])
  }

  /** A freshly constructed `FakeSpeaker`: volume 0, no favourites. */
  function Fake(): Speaker
  {
    Speaker(0, Stations(Some([])))
  }
}
