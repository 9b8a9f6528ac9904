/** spoticon/spotifyModel.py: turning the catalog's raw records into flat result
    records and ordering them. The catalog client itself (the network calls) is not
    modelled: its answers arrive as sequences of raw records. */
module SpotifyModel {
  import opened Wrappers
  import opened Records
  import Sorting

  /** The fields of a catalog track the parser reads: `name`, `track_number`,
      `album.name`, the names in `artists` (the first one is used), `uri`, `popularity`. */
  datatype RawTrack = RawTrack(name: string, trackNumber: int, albumName: string,
                               artistNames: seq<string>, uri: string, popularity: int)

  datatype RawAlbum = RawAlbum(id: string, name: string, uri: string)

  datatype RawArtist = RawArtist(id: string, name: string, uri: string, popularity: int)

  /** A result set: section name ("tracks", "albums", "artists") to its records. */
  type ResultSet = map<string, seq<Item>>

  // ---------------------------------------------------------------------------
  // sort
  // ---------------------------------------------------------------------------

  /** The `sort_field` values the program uses. */
  datatype SortField = Popularity | TrackNumber

  /** The record has the key `sort_field` names. */
  predicate HasField(item: Item, field: SortField)
  {
    match field
    case Popularity => (item.Track? && item.popularity.Some?) || item.Artist?
    case TrackNumber => item.Track?
  }

  function FieldValue(item: Item, field: SortField): int
  {
    match field
    case Popularity =>
      if item.Track? && item.popularity.Some? then item.popularity.value
      else if item.Artist? then item.artistPopularity
      else 0
    case TrackNumber => if item.Track? then item.trackNumber else 0
  }

  function SortKey(field: SortField): Item -> int
  {
    (item: Item) => FieldValue(item, field)
  }

  predicate AllHaveField(items: seq<Item>, field: SortField)
  {
    forall i :: 0 <= i < |items| ==> HasField(items[i], field)
  }

  /** `sort`: Python's stable `sorted` by `k[sort_field]`, descending when `reverse`.
      Every record must carry the key (otherwise the lookup raises). */
  function Sort(results: seq<Item>, field: SortField, reverse: bool): (r: seq<Item>)
    requires AllHaveField(results, field)
    ensures multiset(r) == multiset(results) && |r| == |results|
    ensures Sorting.SortedBy(r, SortKey(field), reverse)
    ensures Sorting.SameKeyClasses(r, results, SortKey(field))
  {
    Sorting.SortKeepsKeyClasses(results, SortKey(field), reverse);
    Sorting.SortBy(results, SortKey(field), reverse)
  }

  lemma InMultiset(r: seq<Item>, s: seq<Item>, i: int)
    requires multiset(r) == multiset(s) && 0 <= i < |r|
    ensures r[i] in s
  {
    assert r[i] in multiset(r);
  }

  // ---------------------------------------------------------------------------
  // parse_tracks
  // ---------------------------------------------------------------------------

  /** Python truthiness of an optional string argument. */
  predicate Truthy(s: Option<string>)
  {
    s.Some? && s.value != ""
  }

  /** The track record can be built: the first artist is looked up only when no
      (truthy) artist override is given, and a track without artists makes it raise. */
  predicate Resolvable(raw: RawTrack, artist: Option<string>)
  {
    Truthy(artist) || raw.artistNames != []
  }

  predicate AllResolvable(results: seq<RawTrack>, artist: Option<string>)
  {
    forall j :: 0 <= j < |results| ==> Resolvable(results[j], artist)
  }

  /** The record built for one raw track. */
  function TrackInfo(raw: RawTrack, artist: Option<string>, album: Option<string>, source: Option<string>): (t: Item)
    requires Resolvable(raw, artist)
    ensures t.Track? && Category(t) == "track"
    ensures t.trackName == raw.name && t.trackNumber == raw.trackNumber && t.trackUri == raw.uri
    ensures t.albumName == if Truthy(album) then album.value else raw.albumName
    ensures t.artistName == if Truthy(artist) then artist.value else raw.artistNames[0]
    ensures t.popularity == if source == Some("search") then Some(raw.popularity) else None
  {
    Track(raw.name,
          raw.trackNumber,
          if Truthy(album) then album.value else raw.albumName,
          if Truthy(artist) then artist.value else raw.artistNames[0],
          raw.uri,
          if source == Some("search") then Some(raw.popularity) else None)
  }

  /** The records in input order, before any sorting. */
  function Shape(results: seq<RawTrack>, artist: Option<string>, album: Option<string>, source: Option<string>): (r: seq<Item>)
    requires AllResolvable(results, artist)
    ensures |r| == |results| && AllTracks(r)
  {
    seq(|results|, i requires 0 <= i < |results| => TrackInfo(results[i], artist, album, source))
  }

  /** The result of `parse_tracks`: `None` where it raises, else the records sorted by
      popularity (descending) for a search, by track number (ascending) for an album,
      and in input order otherwise. */
  function ParsedTracks(results: seq<RawTrack>, artist: Option<string>, album: Option<string>, source: Option<string>): (r: Option<seq<Item>>)
    ensures r.Some? <==> AllResolvable(results, artist)
    ensures r.Some? ==> |r.value| == |results| && multiset(r.value) == multiset(Shape(results, artist, album, source))
    ensures r.Some? ==> forall i :: 0 <= i < |r.value| ==> r.value[i].Track? && Category(r.value[i]) == "track"
    ensures r.Some? ==> forall i :: 0 <= i < |r.value| ==> (r.value[i].popularity.Some? <==> source == Some("search"))
    ensures r.Some? && source == Some("search") ==>
      forall i, j :: 0 <= i < j < |r.value| ==> r.value[i].popularity.value >= r.value[j].popularity.value
    ensures r.Some? && source == Some("album") ==>
      forall i, j :: 0 <= i < j < |r.value| ==> r.value[i].trackNumber <= r.value[j].trackNumber
    ensures r.Some? && source != Some("search") && source != Some("album") ==>
      r.value == Shape(results, artist, album, source)
  {
    if !AllResolvable(results, artist) then None
    else
      var shaped := Shape(results, artist, album, source);
      var sorted :=
        if source == Some("search") then Sort(shaped, Popularity, true)
        else if source == Some("album") then Sort(shaped, TrackNumber, false)
        else shaped;
      assert forall i :: 0 <= i < |sorted| ==> sorted[i] in shaped by {
        forall i | 0 <= i < |sorted| ensures sorted[i] in shaped {
          InMultiset(sorted, shaped, i);
        }
      }
      assert source == Some("search") ==>
        forall i, j :: 0 <= i < j < |sorted| ==> SortKey(Popularity)(sorted[i]) >= SortKey(Popularity)(sorted[j]);
      assert source == Some("album") ==>
        forall i, j :: 0 <= i < j < |sorted| ==> SortKey(TrackNumber)(sorted[i]) <= SortKey(TrackNumber)(sorted[j]);
      Some(sorted)
  }

  /** Records with equal sort keys stay in input order (Python's sort is stable). */
  lemma ParsedTracksStable(results: seq<RawTrack>, artist: Option<string>, album: Option<string>, source: Option<string>)
    requires AllResolvable(results, artist)
    requires source == Some("search") || source == Some("album")
    ensures var field := if source == Some("search") then Popularity else TrackNumber;
      Sorting.SameKeyClasses(ParsedTracks(results, artist, album, source).value,
                             Shape(results, artist, album, source), SortKey(field))
  {
  }

  /** `parse_tracks`: builds the records one raw track at a time, then orders them by
      `source`. */
  method ParseTracks(results: seq<RawTrack>, artist: Option<string>, album: Option<string>, source: Option<string>)
    returns (r: Option<seq<Item>>)
    ensures r == ParsedTracks(results, artist, album, source)
  {
    var res: seq<Item> := [];
    var i := 0;
    while i < |results|
      invariant 0 <= i <= |results|
      invariant AllResolvable(results[..i], artist)
      invariant res == Shape(results[..i], artist, album, source)
    {
      var track := results[i];
      if !Truthy(artist) && track.artistNames == [] {
        // `track['artists'][0]` raises
        return None;
      }
      var trackInfo := Track(track.name,
                             track.trackNumber,
                             if Truthy(album) then album.value else track.albumName,
                             if Truthy(artist) then artist.value else track.artistNames[0],
                             track.uri,
                             None);
      if source == Some("search") {
        trackInfo := trackInfo.(popularity := Some(track.popularity));
      }
      assert results[..i + 1] == results[..i] + [track];
      res := res + [trackInfo];
      i := i + 1;
    }
    assert results[..i] == results;
    if source == Some("search") {
      return Some(Sort(res, Popularity, true));
    } else if source == Some("album") {
      return Some(Sort(res, TrackNumber, false));
    } else {
      return Some(res);
    }
  }

  // ---------------------------------------------------------------------------
  // parse_albums, parse_artists
  // ---------------------------------------------------------------------------

  function AlbumRecord(raw: RawAlbum): (t: Item)
    ensures t.Album? && Category(t) == "album"
    ensures t.albumId == raw.id && t.albumName == raw.name && t.albumUri == raw.uri
  {
    Album(raw.id, raw.name, raw.uri)
  }

  function ArtistRecord(raw: RawArtist): (t: Item)
    ensures t.Artist? && Category(t) == "artist"
    ensures t.artistId == raw.id && t.artistName == raw.name && t.artistUri == raw.uri
    ensures t.artistPopularity == raw.popularity
  {
    Artist(raw.id, raw.name, raw.uri, raw.popularity)
  }

  /** `parse_albums`: one album record per raw album, in input order. */
  method ParseAlbums(results: seq<RawAlbum>) returns (r: seq<Item>)
    ensures |r| == |results|
    ensures forall i :: 0 <= i < |r| ==> r[i] == AlbumRecord(results[i]) && Category(r[i]) == "album"
  {
    var res: seq<Item> := [];
    for i := 0 to |results|
      invariant |res| == i
      invariant forall j :: 0 <= j < i ==> res[j] == AlbumRecord(results[j])
    {
      var album := results[i];
      res := res + [Album(album.id, album.name, album.uri)];
    }
    return res;
  }

  /** The artist records in input order, before sorting. */
  function ArtistRecords(results: seq<RawArtist>): (r: seq<Item>)
    ensures |r| == |results| && forall i :: 0 <= i < |r| ==> r[i] == ArtistRecord(results[i])
  {
    seq(|results|, i requires 0 <= i < |results| => ArtistRecord(results[i]))
  }

  /** `parse_artists`: one artist record per raw artist, sorted by popularity, most
      popular first, equally popular ones in input order. */
  method ParseArtists(results: seq<RawArtist>) returns (r: seq<Item>)
    ensures |r| == |results| && multiset(r) == multiset(ArtistRecords(results))
    ensures forall i :: 0 <= i < |r| ==> r[i].Artist? && Category(r[i]) == "artist"
    ensures forall i, j :: 0 <= i < j < |r| ==> r[i].artistPopularity >= r[j].artistPopularity
    ensures Sorting.SameKeyClasses(r, ArtistRecords(results), SortKey(Popularity))
  {
    var res: seq<Item> := [];
    for i := 0 to |results|
      invariant res == ArtistRecords(results[..i])
    {
      var artist := results[i];
      assert results[..i + 1] == results[..i] + [artist];
      res := res + [Artist(artist.id, artist.name, artist.uri, artist.popularity)];
    }
    assert results[..|results|] == results;
    r := Sort(res, Popularity, true);
    forall i | 0 <= i < |r| ensures r[i].Artist? {
      InMultiset(r, res, i);
    }
    assert forall i, j :: 0 <= i < j < |r| ==> SortKey(Popularity)(r[i]) >= SortKey(Popularity)(r[j]);
  }

  // ---------------------------------------------------------------------------
  // Result sets
  // ---------------------------------------------------------------------------

  /** `get_album`: the album's tracks, under the single key "tracks", with the album's
      name on every track (when that name is non-empty) and in track-number order.
      `None` where parsing raises. */
  function GetAlbum(album: Item, fetched: seq<RawTrack>): (r: Option<ResultSet>)
    requires album.Album?
    ensures r.Some? <==> forall j :: 0 <= j < |fetched| ==> fetched[j].artistNames != []
    ensures r.Some? ==> r.value.Keys == {"tracks"} && |r.value["tracks"]| == |fetched|
    ensures r.Some? ==> r.value["tracks"] == ParsedTracks(fetched, None, Some(album.albumName), Some("album")).value
    ensures r.Some? ==> AllTracks(r.value["tracks"])
    ensures r.Some? && album.albumName != "" ==>
      forall i :: 0 <= i < |r.value["tracks"]| ==> r.value["tracks"][i].albumName == album.albumName
    ensures r.Some? ==> forall i, j :: 0 <= i < j < |r.value["tracks"]| ==>
      r.value["tracks"][i].trackNumber <= r.value["tracks"][j].trackNumber
  {
    var parsed := ParsedTracks(fetched, None, Some(album.albumName), Some("album"));
    if parsed.None? then None
    else
      var tracks := parsed.value;
      var shaped := Shape(fetched, None, Some(album.albumName), Some("album"));
      assert forall i :: 0 <= i < |tracks| ==> tracks[i] in shaped by {
        forall i | 0 <= i < |tracks| ensures tracks[i] in shaped {
          InMultiset(tracks, shaped, i);
        }
      }
      Some(map["tracks" := tracks])
  }

  /** `track_search`: the matching tracks under the single key "tracks", each with its
      popularity, most popular first. `None` where parsing raises. */
  function TrackSearch(fetched: seq<RawTrack>): (r: Option<ResultSet>)
    ensures r.Some? <==> forall j :: 0 <= j < |fetched| ==> fetched[j].artistNames != []
    ensures r.Some? ==> r.value.Keys == {"tracks"} && |r.value["tracks"]| == |fetched|
    ensures r.Some? ==> r.value["tracks"] == ParsedTracks(fetched, None, None, Some("search")).value
    ensures r.Some? ==> AllTracks(r.value["tracks"])
    ensures r.Some? ==> forall i :: 0 <= i < |r.value["tracks"]| ==> r.value["tracks"][i].popularity.Some?
    ensures r.Some? ==> forall i, j :: 0 <= i < j < |r.value["tracks"]| ==>
      r.value["tracks"][i].popularity.value >= r.value["tracks"][j].popularity.value
  {
    var parsed := ParsedTracks(fetched, None, None, Some("search"));
    if parsed.None? then None else Some(map["tracks" := parsed.value])
  }
}
