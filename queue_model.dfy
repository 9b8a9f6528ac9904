/** The play queue as a value: a track list and a cursor that starts at -1 ("before the
    first track") and moves one step at a time. Both queue classes of the program
    (`PlayQueue` in spoticon/playQueue.py and `Playlist` in spoticon/playlist.py) are
    proved against these functions. */
module QueueModel {
  import opened Wrappers

  datatype Queue<T> = Queue(tracks: seq<T>, index: int)

  /** What a `next`/`prev` call returns, and the queue after it. */
  datatype Step<T> = Step(track: Option<T>, queue: Queue<T>)

  /** The cursor is -1 or the position of a track. */
  predicate Valid<T>(q: Queue<T>)
  {
    -1 <= q.index <= |q.tracks| - 1
  }

  function Empty<T>(): Queue<T>
  {
    Queue([], -1)
  }

  /** `has_next_track`. In a valid queue it means that the slot after the cursor holds
      a track. */
  predicate HasNext<T>(q: Queue<T>)
    ensures Valid(q) ==> (HasNext(q) <==> 0 <= q.index + 1 < |q.tracks|)
  {
    q.index < |q.tracks| - 1
  }

  /** `has_previous_track`. In a valid queue it means that the cursor is past the first
      track: from the first track (index 0) and from -1 there is no previous one. */
  predicate HasPrevious<T>(q: Queue<T>)
    ensures Valid(q) ==> (HasPrevious(q) <==> 1 <= q.index)
    ensures Valid(q) && HasPrevious(q) ==> 0 <= q.index - 1 < |q.tracks|
  {
    q.index > 0 && q.index <= |q.tracks|
  }

  function AddTrack<T>(q: Queue<T>, t: T): (r: Queue<T>)
    requires Valid(q)
    ensures Valid(r) && HasNext(r)
    ensures r.tracks == q.tracks + [t] && r.index == q.index
  {
    q.(tracks := q.tracks + [t])
  }

  function AddTracks<T>(q: Queue<T>, ts: seq<T>): (r: Queue<T>)
    requires Valid(q)
    ensures Valid(r)
    ensures HasNext(r) <==> HasNext(q) || ts != []
    ensures r.tracks == q.tracks + ts && r.index == q.index
  {
    q.(tracks := q.tracks + ts)
  }

  function Clear<T>(q: Queue<T>): (r: Queue<T>)
    ensures Valid(r) && !HasNext(r) && !HasPrevious(r)
    ensures r == Empty()
  {
    Empty()
  }

  /** `next_track`: advance and return the track under the new cursor, or return nothing
      and change nothing. */
  function Next<T>(q: Queue<T>): (r: Step<T>)
    requires Valid(q)
    ensures Valid(r.queue) && r.queue.tracks == q.tracks
    ensures r.track.Some? <==> HasNext(q)
    ensures r.track.Some? ==> r.queue.index == q.index + 1 && r.track.value == q.tracks[r.queue.index]
    ensures r.track.None? ==> r.queue == q
  {
    if HasNext(q) then
      var q' := q.(index := q.index + 1);
      Step(Some(q'.tracks[q'.index]), q')
    else
      Step(None, q)
  }

  /** `prev_track`: step back and return the track under the new cursor, or return
      nothing and change nothing (in particular from index 0 and from -1). */
  function Prev<T>(q: Queue<T>): (r: Step<T>)
    requires Valid(q)
    ensures Valid(r.queue) && r.queue.tracks == q.tracks
    ensures r.track.Some? <==> HasPrevious(q)
    ensures r.track.Some? ==> r.queue.index == q.index - 1 && r.track.value == q.tracks[r.queue.index]
    ensures r.track.None? ==> r.queue == q
    ensures q.index <= 0 ==> r == Step(None, q)
  {
    if HasPrevious(q) then
      var q' := q.(index := q.index - 1);
      Step(Some(q'.tracks[q'.index]), q')
    else
      Step(None, q)
  }

  /** Going forward and back again returns to the track that was current. */
  lemma NextThenPrev<T>(q: Queue<T>)
    requires Valid(q) && 0 <= q.index && HasNext(q)
    ensures Prev(Next(q).queue) == Step(Some(q.tracks[q.index]), q)
  {
  }

  lemma PrevThenNext<T>(q: Queue<T>)
    requires Valid(q) && HasPrevious(q)
    ensures Next(Prev(q).queue) == Step(Some(q.tracks[q.index]), q)
  {
  }

  /** The calls a client can make on a queue. */
  datatype Op<T> = AddOne(t: T) | AddMany(ts: seq<T>) | ClearAll | Forward | Backward

  function Apply<T>(q: Queue<T>, op: Op<T>): (r: Queue<T>)
    requires Valid(q)
    ensures Valid(r)
  {
    match op
    case AddOne(t) => AddTrack(q, t)
    case AddMany(ts) => AddTracks(q, ts)
    case ClearAll => Clear(q)
    case Forward => Next(q).queue
    case Backward => Prev(q).queue
  }

  /** Any sequence of calls keeps the cursor within [-1, len - 1]. */
  function Run<T>(q: Queue<T>, ops: seq<Op<T>>): (r: Queue<T>)
    requires Valid(q)
    ensures Valid(r)
    decreases |ops|
  {
    if ops == [] then q else Run(Apply(q, ops[0]), ops[1..])
  }

  /** The tracks returned by `n` successive `next` calls, and the queue afterwards. */
  function NextTimes<T>(q: Queue<T>, n: nat): (r: (seq<Option<T>>, Queue<T>))
    requires Valid(q)
    ensures |r.0| == n && Valid(r.1)
    decreases n
  {
    if n == 0 then ([], q)
    else
      var s := Next(q);
      var rest := NextTimes(s.queue, n - 1);
      ([s.track] + rest.0, rest.1)
  }

  /** `n` successive `next` calls return the tracks after the cursor in order, then
      nothing, and leave the cursor on the last track they reached. */
  lemma {:induction false} NextTimesInOrder<T>(q: Queue<T>, n: nat)
    requires Valid(q)
    ensures NextTimes(q, n).1.tracks == q.tracks
    ensures NextTimes(q, n).1.index == if q.index + n < |q.tracks| - 1 then q.index + n else |q.tracks| - 1
    ensures forall i :: 0 <= i < n ==>
      NextTimes(q, n).0[i] == if q.index + 1 + i < |q.tracks| then Some(q.tracks[q.index + 1 + i]) else None
    decreases n
  {
    if n > 0 {
      var s := Next(q);
      NextTimesInOrder(s.queue, n - 1);
      var out := NextTimes(q, n).0;
      assert out == [s.track] + NextTimes(s.queue, n - 1).0;
      forall i | 0 <= i < n
        ensures out[i] == if q.index + 1 + i < |q.tracks| then Some(q.tracks[q.index + 1 + i]) else None
      {
        if i > 0 {
          assert out[i] == NextTimes(s.queue, n - 1).0[i - 1];
        }
      }
    }
  }

  /** Three tracks queued from a fresh cursor: three `next` calls return them in order,
      a fourth returns nothing and the cursor stays on the third. */
  lemma ThreeTracksScenario<T>(t1: T, t2: T, t3: T)
    ensures NextTimes(AddTracks(Empty(), [t1, t2, t3]), 4)
         == ([Some(t1), Some(t2), Some(t3), None], Queue([t1, t2, t3], 2))
  {
    var q := AddTracks(Empty(), [t1, t2, t3]);
    assert q == Queue([t1, t2, t3], -1);
    NextTimesInOrder(q, 4);
    var r := NextTimes(q, 4);
    assert r.0 == [Some(t1), Some(t2), Some(t3), None];
  }
}
