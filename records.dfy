/** The flat result records the catalog layer hands to the rest of the program
    (the dictionaries built in spoticon/spotifyModel.py), tagged by category. */
module Records {
  import opened Wrappers

  /** A result record. A track carries its popularity only when it came from a search. */
  datatype Item =
    | Track(trackName: string, trackNumber: int, albumName: string, artistName: string,
            trackUri: string, popularity: Option<int>)
    | Album(albumId: string, albumName: string, albumUri: string)
    | Artist(artistId: string, artistName: string, artistUri: string, artistPopularity: int)

  /** The value of the record's `category` key. */
  function Category(item: Item): string
  {
    match item
    case Track(_, _, _, _, _, _) => "track"
    case Album(_, _, _) => "album"
    case Artist(_, _, _, _) => "artist"
  }

  predicate AllTracks(items: seq<Item>)
  {
    forall i :: 0 <= i < |items| ==> items[i].Track?
  }

  /** `item.get('track_name')`: absent on albums and artists. */
  function TrackNameField(item: Item): Option<string>
  {
    if item.Track? then Some(item.trackName) else None
  }

  /** `item.get('artist_name')`: absent on albums. */
  function ArtistNameField(item: Item): Option<string>
  {
    if item.Album? then None else Some(item.artistName)
  }
}
