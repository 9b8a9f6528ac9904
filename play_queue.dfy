/** spoticon/playQueue.py: the queue class of the earlier revision. */
module PlayQueues {
  import opened Wrappers
  import QueueModel

  class PlayQueue<T> {
    var playQueue: seq<T>
    var currentPlayQueueIndex: int

    function State(): QueueModel.Queue<T>
      reads this
    {
      QueueModel.Queue(playQueue, currentPlayQueueIndex)
    }

    ghost predicate Valid()
      reads this
    {
      QueueModel.Valid(State())
    }

    constructor ()
      ensures Valid() && State() == QueueModel.Empty()
      ensures playQueue == [] && currentPlayQueueIndex == -1
    {
      playQueue := [];
      currentPlayQueueIndex := -1;
    }

    method AddTrack(track: T)
      requires Valid()
      modifies this
      ensures Valid() && State() == QueueModel.AddTrack(old(State()), track)
      ensures playQueue == old(playQueue) + [track] && currentPlayQueueIndex == old(currentPlayQueueIndex)
    {
      playQueue := playQueue + [track];
    }

    method AddTracks(tracks: seq<T>)
      requires Valid()
      modifies this
      ensures Valid() && State() == QueueModel.AddTracks(old(State()), tracks)
      ensures playQueue == old(playQueue) + tracks && currentPlayQueueIndex == old(currentPlayQueueIndex)
    {
      playQueue := playQueue + tracks;
    }

    method ClearPlayQueue()
      modifies this
      ensures Valid() && State() == QueueModel.Clear(old(State()))
      ensures !HasNextTrack() && !HasPreviousTrack()
    {
      playQueue := [];
      currentPlayQueueIndex := -1;
    }

    predicate HasNextTrack()
      reads this
      ensures HasNextTrack() <==> QueueModel.HasNext(State())
    {
      currentPlayQueueIndex < |playQueue| - 1
    }

    predicate HasPreviousTrack()
      reads this
      ensures HasPreviousTrack() <==> QueueModel.HasPrevious(State())
    {
      currentPlayQueueIndex > 0 && currentPlayQueueIndex <= |playQueue|
    }

    method NextTrack() returns (track: Option<T>)
      requires Valid()
      modifies this
      ensures Valid() && QueueModel.Step(track, State()) == QueueModel.Next(old(State()))
      ensures track.Some? <==> old(HasNextTrack())
      ensures track.Some? ==> (currentPlayQueueIndex == old(currentPlayQueueIndex) + 1
                              && track.value == playQueue[currentPlayQueueIndex])
      ensures track.None? ==> unchanged(this)
    {
      if HasNextTrack() {
        currentPlayQueueIndex := currentPlayQueueIndex + 1;
        return Some(playQueue[currentPlayQueueIndex]);
      } else {
        return None;
      }
    }

    method PrevTrack() returns (track: Option<T>)
      requires Valid()
      modifies this
      ensures Valid() && QueueModel.Step(track, State()) == QueueModel.Prev(old(State()))
      ensures track.Some? <==> old(HasPreviousTrack())
      ensures track.Some? ==> (currentPlayQueueIndex == old(currentPlayQueueIndex) - 1
                              && track.value == playQueue[currentPlayQueueIndex])
      ensures track.None? ==> unchanged(this)
    {
      if HasPreviousTrack() {
        currentPlayQueueIndex := currentPlayQueueIndex - 1;
        return Some(playQueue[currentPlayQueueIndex]);
      } else {
        return None;
      }
    }
  }

  /** The queue as a client sees it: three `next_track` calls walk three queued tracks in
      order, a fourth returns nothing. */
  method ThreeTracksClient<T>(t1: T, t2: T, t3: T) returns (a: Option<T>, b: Option<T>, c: Option<T>, d: Option<T>, back: Option<T>)
    ensures a == Some(t1) && b == Some(t2) && c == Some(t3) && d == None
    ensures back == Some(t2)
  {
    var q := new PlayQueue<T>();
    q.AddTracks([t1, t2, t3]);
    a := q.NextTrack();
    b := q.NextTrack();
    c := q.NextTrack();
    d := q.NextTrack();
    assert q.currentPlayQueueIndex == 2 && !q.HasNextTrack();
    back := q.PrevTrack();
  }
}
