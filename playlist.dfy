/** spoticon/playlist.py: the queue class the session controller uses. */
module Playlists {
  import opened Wrappers
  import QueueModel

  class Playlist<T> {
    var playlist: seq<T>
    var currentPlaylistIndex: int

    function State(): QueueModel.Queue<T>
      reads this
    {
      QueueModel.Queue(playlist, currentPlaylistIndex)
    }

    ghost predicate Valid()
      reads this
    {
      QueueModel.Valid(State())
    }

    constructor ()
      ensures Valid() && State() == QueueModel.Empty()
      ensures playlist == [] && currentPlaylistIndex == -1
    {
      playlist := [];
      currentPlaylistIndex := -1;
    }

    method AddTrack(track: T)
      requires Valid()
      modifies this
      ensures Valid() && State() == QueueModel.AddTrack(old(State()), track)
      ensures playlist == old(playlist) + [track] && currentPlaylistIndex == old(currentPlaylistIndex)
    {
      playlist := playlist + [track];
    }

    method AddTracks(tracks: seq<T>)
      requires Valid()
      modifies this
      ensures Valid() && State() == QueueModel.AddTracks(old(State()), tracks)
      ensures playlist == old(playlist) + tracks && currentPlaylistIndex == old(currentPlaylistIndex)
    {
      playlist := playlist + tracks;
    }

    method ClearPlaylist()
      modifies this
      ensures Valid() && State() == QueueModel.Clear(old(State()))
      ensures !HasNextTrack() && !HasPreviousTrack()
    {
      playlist := [];
      currentPlaylistIndex := -1;
    }

    predicate HasNextTrack()
      reads this
      ensures HasNextTrack() <==> QueueModel.HasNext(State())
    {
      currentPlaylistIndex < |playlist| - 1
    }

    predicate HasPreviousTrack()
      reads this
      ensures HasPreviousTrack() <==> QueueModel.HasPrevious(State())
    {
      currentPlaylistIndex > 0 && currentPlaylistIndex <= |playlist|
    }

    method NextTrack() returns (track: Option<T>)
      requires Valid()
      modifies this
      ensures Valid() && QueueModel.Step(track, State()) == QueueModel.Next(old(State()))
      ensures track.Some? <==> old(HasNextTrack())
      ensures track.Some? ==> (currentPlaylistIndex == old(currentPlaylistIndex) + 1
                              && track.value == playlist[currentPlaylistIndex])
      ensures track.None? ==> unchanged(this)
    {
      if HasNextTrack() {
        currentPlaylistIndex := currentPlaylistIndex + 1;
        return Some(playlist[currentPlaylistIndex]);
      } else {
        return None;
      }
    }

    method PrevTrack() returns (track: Option<T>)
      requires Valid()
      modifies this
      ensures Valid() && QueueModel.Step(track, State()) == QueueModel.Prev(old(State()))
      ensures track.Some? <==> old(HasPreviousTrack())
      ensures track.Some? ==> (currentPlaylistIndex == old(currentPlaylistIndex) - 1
                              && track.value == playlist[currentPlaylistIndex])
      ensures track.None? ==> unchanged(this)
    {
      if HasPreviousTrack() {
        currentPlaylistIndex := currentPlaylistIndex - 1;
        return Some(playlist[currentPlaylistIndex]);
      } else {
        return None;
      }
    }
  }

  /** The queue as a client sees it: three `next_track` calls walk three queued tracks in
      order, a fourth returns nothing. */
  method ThreeTracksClient<T>(t1: T, t2: T, t3: T) returns (a: Option<T>, b: Option<T>, c: Option<T>, d: Option<T>, back: Option<T>)
    ensures a == Some(t1) && b == Some(t2) && c == Some(t3) && d == None
    ensures back == Some(t2)
  {
    var q := new Playlist<T>();
    q.AddTracks([t1, t2, t3]);
    a := q.NextTrack();
    b := q.NextTrack();
    c := q.NextTrack();
    d := q.NextTrack();
    assert q.currentPlaylistIndex == 2 && !q.HasNextTrack();
    back := q.PrevTrack();
  }
}
