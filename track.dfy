/** The cached track of spotify_client.c: `free_track`, `spotify_clear_track`
    and `spotify_clone_track`. An owned C string (`char *` that may be NULL)
    is an `Option<string>`; the artist list is a sequence of names in
    insertion order. */
module Track {
  import opened Common

  /** The contents of a `TrackInfo`. */
  datatype TrackValue = TrackValue(
    id: string,
    name: Option<string>,
    albumName: Option<string>,
    urlCover: Option<string>,
    artists: seq<string>,
    isPlaying: bool,
    progressMs: int,
    durationMs: int,
    deviceId: Option<string>,
    deviceName: Option<string>,
    deviceType: Option<string>,
    volumePercent: string)

  /** What `spotify_clear_track` leaves behind, whatever the track held. */
  const Cleared: TrackValue :=
    TrackValue("", None, None, None, [], false, 0, 0, None, None, None, "-1")

  function CountSome(o: Option<string>): nat
  {
    if o.Some? then 1 else 0
  }

  /** The number of heap allocations a track owns. */
  function Owned(v: TrackValue): nat
  {
    CountSome(v.name) + CountSome(v.albumName) + CountSome(v.urlCover) + |v.artists|
      + CountSome(v.deviceId) + CountSome(v.deviceName) + CountSome(v.deviceType)
  }

  /** A track the clone can read: its three strings are not NULL (they are
      passed to `strdup`). */
  predicate Cloneable(v: TrackValue)
  {
    v.name.Some? && v.albumName.Some? && v.urlCover.Some?
  }

  /** `spotify_clone_track` on values: copies the identifier, the three
      strings and the playback fields, appends the source's artists to the
      destination's list and leaves the device untouched. */
  function Clone(dest: TrackValue, src: TrackValue): TrackValue
  {
    dest.(id := src.id, name := src.name, albumName := src.albumName, urlCover := src.urlCover,
          artists := dest.artists + src.artists,
          isPlaying := src.isPlaying, progressMs := src.progressMs, durationMs := src.durationMs)
  }

  /** The allocations the clone overwrites without freeing them. */
  function Overwritten(dest: TrackValue): nat
  {
    CountSome(dest.name) + CountSome(dest.albumName) + CountSome(dest.urlCover)
  }

  /** Clearing releases every owned allocation. */
  lemma ClearReleasesAll()
    ensures Owned(Cleared) == 0 && Overwritten(Cleared) == 0
  {
  }

  /** Clearing and then cloning yields a copy of the source's playback data
      with its own artist list, a cleared device, and nothing leaked; the
      result does not depend on what the track held before. */
  lemma ClearThenClone(src: TrackValue)
    requires Cloneable(src)
    ensures var r := Clone(Cleared, src);
      && r.id == src.id && r.name == src.name && r.albumName == src.albumName && r.urlCover == src.urlCover
      && r.artists == src.artists
      && r.isPlaying == src.isPlaying && r.progressMs == src.progressMs && r.durationMs == src.durationMs
      && r.deviceId.None? && r.deviceName.None? && r.deviceType.None? && r.volumePercent == "-1"
      && Owned(r) == 3 + |src.artists|
  {
  }

  /** Cloning twice without clearing in between leaks the three strings of
      the first copy and lists every artist twice. */
  lemma CloneWithoutClear(src: TrackValue)
    requires Cloneable(src)
    ensures Overwritten(Clone(Cleared, src)) == 3
    ensures Clone(Clone(Cleared, src), src).artists == src.artists + src.artists
  {
  }

  /** A `TrackInfo` record, updated in place. */
  class TrackInfo {
    var id: string
    var name: Option<string>
    var albumName: Option<string>
    var urlCover: Option<string>
    var artists: seq<string>
    var isPlaying: bool
    var progressMs: int
    var durationMs: int
    var deviceId: Option<string>
    var deviceName: Option<string>
    var deviceType: Option<string>
    var volumePercent: string

    constructor (v: TrackValue)
      ensures Value() == v
    {
      id, name, albumName, urlCover := v.id, v.name, v.albumName, v.urlCover;
      artists, isPlaying, progressMs, durationMs := v.artists, v.isPlaying, v.progressMs, v.durationMs;
      deviceId, deviceName, deviceType, volumePercent := v.deviceId, v.deviceName, v.deviceType, v.volumePercent;
    }

    function Value(): TrackValue
      reads this
    {
      TrackValue(id, name, albumName, urlCover, artists, isPlaying, progressMs, durationMs,
                 deviceId, deviceName, deviceType, volumePercent)
    }

    /** `free_track` on a non-NULL track: every owned string is freed and
        set to NULL (one already NULL stays NULL), the artist list emptied and
        the volume set to "-1"; the identifier and playback fields are kept. */
    method Free()
      modifies this
      ensures Owned(Value()) == 0
      ensures Value() == old(Value()).(name := None, albumName := None, urlCover := None, artists := [],
                                        deviceId := None, deviceName := None, deviceType := None,
                                        volumePercent := "-1")
    {
      name, albumName, urlCover := None, None, None;
      artists := [];
      deviceId, deviceName, deviceType := None, None, None;
      volumePercent := "-1";
    }

    /** `spotify_clone_track(this, src)`: always `ESP_OK`. */
    method CloneFrom(src: TrackInfo) returns (err: int)
      requires src != this && Cloneable(src.Value())
      modifies this
      ensures err == EspOk && Value() == Clone(old(Value()), src.Value())
    {
      id := src.id;
      name := src.name;
      albumName := src.albumName;
      urlCover := src.urlCover;
      isPlaying := src.isPlaying;
      progressMs := src.progressMs;
      durationMs := src.durationMs;
      var list := artists;
      var rest := src.artists;
      while rest != []
        invariant artists + src.artists == list + rest
        decreases |rest|
      {
        list := list + [rest[0]];
        rest := rest[1..];
      }
      artists := list;
      return EspOk;
    }
  }

  /** `spotify_clear_track`: nothing for NULL, otherwise free the track and
      zero its identifier and playback fields. */
  method ClearTrack(t: TrackInfo?)
    modifies t
    ensures t != null ==> t.Value() == Cleared && Owned(t.Value()) == 0
  {
    if t == null {
      return;
    }
    t.Free();
    t.id := "";
    t.isPlaying := false;
    t.progressMs := 0;
    t.durationMs := 0;
  }
}
