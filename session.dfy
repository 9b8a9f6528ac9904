/** spoticon/main.py: the session controller `Spoticon`. It owns the queue (a
    `Playlist`), the result browser (a `SearchScreen`), the back/forward history of
    result lists and the playback flags, dispatches keys through a fixed command table,
    and runs a watcher that polls the external player.

    Outside the model: the terminal (keys, typed text and the catalog's answers arrive
    as a `KeyEvent`), the external player (its reported state and position are
    parameters of a watcher tick; the commands sent to it are recorded in `sent`), and
    the two threads (a key handler and a watcher tick are each one atomic step). */
module Session {
  import opened Wrappers
  import opened Records
  import QueueModel
  import Playlists
  import Screens
  import SpotifyModel

  // ---------------------------------------------------------------------------
  // Back/forward history as a value
  // ---------------------------------------------------------------------------

  /** The back stack (top at the end), the current results and the forward stack. */
  datatype History = History(back: seq<seq<Item>>, current: seq<Item>, forward: seq<seq<Item>>)

  /** Result lists held in the history, the current one included. */
  function Entries(h: History): nat
  {
    |h.back| + |h.forward| + 1
  }

  /** `back_history`: pop the back stack into view, pushing the current results on the
      forward stack; nothing when the back stack is empty. */
  function Back(h: History): (r: History)
    ensures Entries(r) == Entries(h)
    ensures h.back == [] ==> r == h
    ensures h.back != [] ==> |r.back| == |h.back| - 1 && r.current == h.back[|h.back| - 1]
                             && r.forward == h.forward + [h.current]
  {
    if h.back == [] then h
    else History(h.back[..|h.back| - 1], h.back[|h.back| - 1], h.forward + [h.current])
  }

  /** `forward_history`: the mirror image of `Back`. */
  function Forward(h: History): (r: History)
    ensures Entries(r) == Entries(h)
    ensures h.forward == [] ==> r == h
    ensures h.forward != [] ==> |r.forward| == |h.forward| - 1 && r.current == h.forward[|h.forward| - 1]
                                && r.back == h.back + [h.current]
  {
    if h.forward == [] then h
    else History(h.back + [h.current], h.forward[|h.forward| - 1], h.forward[..|h.forward| - 1])
  }

  /** The history part of `search`: non-empty current results are pushed on the back
      stack; the forward stack is kept. */
  function SearchPush(h: History, found: seq<Item>): (r: History)
    ensures r.current == found && r.forward == h.forward
    ensures h.current != [] ==> r.back == h.back + [h.current]
    ensures h.current == [] ==> r.back == h.back
  {
    History(if h.current != [] then h.back + [h.current] else h.back, found, h.forward)
  }

  lemma BackThenForward(h: History)
    requires h.back != []
    ensures Forward(Back(h)) == h
  {
  }

  lemma ForwardThenBack(h: History)
    requires h.forward != []
    ensures Back(Forward(h)) == h
  {
  }

  /** Starting with results A on view, a search that finds B, then back, shows A again;
      forward then shows B again. */
  lemma SearchBackForward(h: History, b: seq<Item>)
    requires h.current != []
    ensures Back(SearchPush(h, b)) == History(h.back, h.current, h.forward + [b])
    ensures Forward(Back(SearchPush(h, b))) == SearchPush(h, b)
  {
  }

  /** A search does not clear the forward stack: after going back and searching, the
      next `forward` still leads to the list left behind. */
  lemma SearchKeepsForward(h: History, found: seq<Item>)
    requires h.back != []
    ensures Forward(SearchPush(Back(h), found)).current == h.current
  {
  }

  // ---------------------------------------------------------------------------
  // The command table
  // ---------------------------------------------------------------------------

  datatype Command =
    | Search | PlayHighlightedTrack | PlayPause | MoveUp | MoveDown
    | ForwardHistory | BackHistory | ToggleRepeatOneTrack
    | PlaylistPlayNext | PlaylistPlayLast | PlaylistClearPlaylist
    | PlaylistAddHighlightedTrack | PlaylistAddAllTracks

  /** The key bound to each command in `self.commands`. Every command is reached from
      its own key, so no two commands share a key. */
  function BoundKey(c: Command): (key: char)
    ensures CommandFor(key) == Some(c)
    ensures key != 'q'
  {
    match c
    case Search => 's'
    case PlayHighlightedTrack => '\n'
    case PlayPause => ' '
    case MoveUp => 'j'
    case MoveDown => 'k'
    case ForwardHistory => 'l'
    case BackHistory => 'h'
    case ToggleRepeatOneTrack => 'r'
    case PlaylistPlayNext => 'L'
    case PlaylistPlayLast => 'H'
    case PlaylistClearPlaylist => 'C'
    case PlaylistAddHighlightedTrack => '+'
    case PlaylistAddAllTracks => 'A'
  }

  /** `self.commands`: the command a key runs, if any. */
  function CommandFor(key: char): (c: Option<Command>)
    ensures key == 'q' ==> c == None
  {
    match key
    case 's' => Some(Search)
    case '\n' => Some(PlayHighlightedTrack)
    case ' ' => Some(PlayPause)
    case 'j' => Some(MoveUp)
    case 'k' => Some(MoveDown)
    case 'l' => Some(ForwardHistory)
    case 'h' => Some(BackHistory)
    case 'r' => Some(ToggleRepeatOneTrack)
    case 'L' => Some(PlaylistPlayNext)
    case 'H' => Some(PlaylistPlayLast)
    case 'C' => Some(PlaylistClearPlaylist)
    case '+' => Some(PlaylistAddHighlightedTrack)
    case 'A' => Some(PlaylistAddAllTracks)
    case _ => None
  }

  /** Conversely, a key that runs a command is that command's key. */
  lemma BoundKeyOfCommand(key: char)
    ensures CommandFor(key).Some? ==> BoundKey(CommandFor(key).value) == key
  {
  }

  // ---------------------------------------------------------------------------
  // Playback values and the watcher's decision rule
  // ---------------------------------------------------------------------------

  /** What `play_track` is handed: nothing (None), a result record, or the queue's
      `next_track` method itself, uncalled. */
  datatype PlayArg = NoTrack | TrackArg(item: Item) | NextTrackMethod

  /** Python truthiness of `nowPlaying`. */
  predicate IsSet(a: PlayArg)
  {
    !a.NoTrack?
  }

  /** A command sent to the external player. */
  datatype PlayerCommand = Play(arg: PlayArg) | TogglePlayPause

  /** How a key handler ends: the loop goes on, the user quit, or an exception escaped
      the handler and ended the program. */
  datatype Outcome = Continue | Quit | Crash

  /** What the terminal supplies for one key press: the key, the text typed at the
      search prompt and the catalog's answer to that search (read only by 's'). */
  datatype KeyEvent = KeyEvent(key: char, typed: string, fetched: seq<SpotifyModel.RawTrack>)

  /** The player reports a stopped track: paused or stopped at position "0.0". */
  predicate Idle(state: string, position: string)
    ensures (state == "paused" || state == "stopped") && position == "0.0" ==> Idle(state, position)
    ensures state == "playing" || position != "0.0" ==> !Idle(state, position)
  {
    (state == "paused" || state == "stopped") && position == "0.0"
  }

  datatype Decision = ResetCount | Replay | Advance | Wait | Nothing

  /** One tick of `listen_for_track_advance`: what it does, given the player's report
      and the session flags. */
  function Decide(idle: bool, nowPlayingSet: bool, repeatOne: bool, hasNext: bool, pauseCount: int): (d: Decision)
    ensures d == ResetCount <==> !idle
    ensures d == Replay <==> idle && nowPlayingSet && repeatOne
    ensures d == Advance <==> idle && !(nowPlayingSet && repeatOne) && hasNext && pauseCount >= 2
    ensures d == Wait <==> idle && !(nowPlayingSet && repeatOne) && hasNext && pauseCount < 2
    ensures d == Nothing <==> idle && !(nowPlayingSet && repeatOne) && !hasNext
  {
    if !idle then ResetCount
    else if nowPlayingSet && repeatOne then Replay
    else if hasNext then (if pauseCount >= 2 then Advance else Wait)
    else Nothing
  }

  /** The pause count after a tick whose play command (if any) succeeded. */
  function CountAfter(d: Decision, pauseCount: int): (r: int)
    requires 0 <= pauseCount <= 2
    requires d == Wait ==> pauseCount < 2
    ensures 0 <= r <= 2
    ensures d == Advance || d == ResetCount ==> r == 0
    ensures d == Wait ==> r == pauseCount + 1
    ensures d == Replay || d == Nothing ==> r == pauseCount
  {
    match d
    case ResetCount => 0
    case Advance => 0
    case Wait => pauseCount + 1
    case Replay => pauseCount
    case Nothing => pauseCount
  }

  /** With repeat off (and 'r' only crashes, so it stays off), whether something is
      playing makes no difference to the tick. */
  lemma RepeatOffIgnoresNowPlaying(idle: bool, nowPlayingSet: bool, hasNext: bool, pauseCount: int)
    ensures Decide(idle, nowPlayingSet, false, hasNext, pauseCount) == Decide(idle, false, false, hasNext, pauseCount)
  {
  }

  lemma DecideWaitsBelowThreshold(nowPlayingSet: bool, pauseCount: int)
    requires 0 <= pauseCount <= 2
    ensures Decide(true, nowPlayingSet, false, true, pauseCount) == (if pauseCount < 2 then Wait else Advance)
  {
  }

  /** The pause count and the number of advances after ticks that report idle
      (true) or not (false), with a next track always queued and repeat off. */
  function Debounce(pauseCount: int, idle: seq<bool>): (r: (int, nat))
    requires 0 <= pauseCount <= 2
    ensures 0 <= r.0 <= 2
    decreases |idle|
  {
    if idle == [] then (pauseCount, 0)
    else
      var d := Decide(idle[0], false, false, true, pauseCount);
      var rest := Debounce(CountAfter(d, pauseCount), idle[1..]);
      (rest.0, rest.1 + if d == Advance then 1 else 0)
  }

  /** Held idle, the watcher advances on every third tick: the third consecutive idle
      tick from a reset count plays the next track. */
  lemma {:induction false} IdleRunAdvancesEveryThird(pauseCount: int, k: nat)
    requires 0 <= pauseCount <= 2
    ensures Debounce(pauseCount, seq(k, _ => true)) == ((pauseCount + k) % 3, (pauseCount + k) / 3)
    decreases k
  {
    if k > 0 {
      var idle := seq(k, _ => true);
      assert idle[1..] == seq(k - 1, _ => true);
      var d := Decide(true, false, false, true, pauseCount);
      if pauseCount == 2 {
        IdleRunAdvancesEveryThird(0, k - 1);
      } else {
        IdleRunAdvancesEveryThird(pauseCount + 1, k - 1);
      }
    }
  }

  /** An idle report that does not persist triggers nothing: idle for two ticks then
      playing again leaves no advance and a reset count. */
  lemma ShortPauseDoesNotAdvance()
    ensures Debounce(0, [true, true, false]) == (0, 0)
    ensures Debounce(0, [true, false]) == (0, 0)
  {
  }

  // ---------------------------------------------------------------------------
  // The session state as a value, and what each key does to it
  // ---------------------------------------------------------------------------

  /** Everything a key handler can change: the history, the playback fields, the
      commands sent to the player, the watcher's stop flag, the playlist and the
      browser's cursor. */
  datatype Snapshot = Snapshot(
    history: History,
    nowPlaying: PlayArg,
    nowPlayingLine: string,
    repeatOne: bool,
    pauseCount: int,
    sent: seq<PlayerCommand>,
    closing: bool,
    queue: QueueModel.Queue<Item>,
    view: Screens.View)

  predicate AllTrackLists(lists: seq<seq<Item>>)
  {
    forall i :: 0 <= i < |lists| ==> AllTracks(lists[i])
  }

  /** The session invariant: a valid playlist cursor, a valid browser cursor, the
      browser showing the current results, only track lists in the history (what
      `track_search` returns), and a pause count within [0, 2]. */
  predicate Consistent(s: Snapshot, height: int)
  {
    && QueueModel.Valid(s.queue)
    && Screens.Inv(s.view, height)
    && s.view.results == s.history.current
    && AllTracks(s.history.current)
    && AllTrackLists(s.history.back)
    && AllTrackLists(s.history.forward)
    && 0 <= s.pauseCount <= 2
  }

  /** `play_track`: `arg` becomes now playing and is sent to the player; the
      now-playing line is redrawn only for a record (drawing anything else raises). */
  function Played(s: Snapshot, arg: PlayArg): Snapshot
  {
    s.(nowPlaying := arg,
       sent := s.sent + [Play(arg)],
       nowPlayingLine := if arg.TrackArg? then Screens.FormatNowPlaying(arg.item) else s.nowPlayingLine)
  }

  /** A history step followed by `draw_screen` of the results it brings into view. */
  function Shown(s: Snapshot, h: History, height: int): (r: Snapshot)
    requires Consistent(s, height)
    requires AllTracks(h.current) && AllTrackLists(h.back) && AllTrackLists(h.forward)
    ensures Consistent(r, height) && r.history == h
    ensures r == s.(history := h, view := r.view)
  {
    Screens.DrawInv(s.view, h.current, height);
    s.(history := h, view := Screens.Draw(s.view, h.current))
  }

  /** `search` (corrected): nothing for two characters or fewer; otherwise the history
      takes the tracks found; a parse failure raises after the back push. Only the
      history and the browser change. */
  function SearchStep(typed: string, fetched: seq<SpotifyModel.RawTrack>, s: Snapshot, height: int): (r: (Snapshot, Outcome))
    requires Consistent(s, height)
    ensures Consistent(r.0, height) && r.1 != Quit
    ensures r.1 == Crash <==> |typed| > 2 && SpotifyModel.TrackSearch(fetched).None?
    ensures r.0 == s.(history := r.0.history, view := r.0.view)
  {
    if |typed| <= 2 then (s, Continue)
    else
      var found := SpotifyModel.TrackSearch(fetched);
      if found.None? then
        var pushed := if s.history.current != [] then s.history.back + [s.history.current] else s.history.back;
        (s.(history := s.history.(back := pushed)), Crash)
      else
        (Shown(s, SearchPush(s.history, found.value["tracks"]), height), Continue)
  }

  /** `back_history`: nothing on an empty back stack. */
  function BackStep(s: Snapshot, height: int): (r: Snapshot)
    requires Consistent(s, height)
    ensures Consistent(r, height)
    ensures r == s.(history := r.history, view := r.view)
  {
    if s.history.back == [] then s else Shown(s, Back(s.history), height)
  }

  /** `forward_history`: nothing on an empty forward stack. */
  function ForwardStep(s: Snapshot, height: int): (r: Snapshot)
    requires Consistent(s, height)
    ensures Consistent(r, height)
    ensures r == s.(history := r.history, view := r.view)
  {
    if s.history.forward == [] then s else Shown(s, Forward(s.history), height)
  }

  /** `play_highlighted_track` (corrected lookup); the lookup raises on no results. */
  function PlayHighlightedStep(s: Snapshot, height: int): (r: (Snapshot, Outcome))
    requires Consistent(s, height)
    ensures Consistent(r.0, height) && r.1 != Quit
    ensures r.1 == Crash <==> s.history.current == []
    ensures r.0 == s.(nowPlaying := r.0.nowPlaying, nowPlayingLine := r.0.nowPlayingLine, sent := r.0.sent)
  {
    var t := Screens.HighlightedTrack(s.view, height);
    if t.None? then (s, Crash) else (Played(s, TrackArg(t.value)), Continue)
  }

  /** `playlist_play_next`: whatever `next_track` returns is played; None raises. */
  function PlayNextStep(s: Snapshot, height: int): (r: (Snapshot, Outcome))
    requires Consistent(s, height)
    ensures Consistent(r.0, height) && r.1 != Quit
    ensures r.1 == Crash <==> !QueueModel.HasNext(s.queue)
    ensures r.0 == s.(queue := r.0.queue, nowPlaying := r.0.nowPlaying, nowPlayingLine := r.0.nowPlayingLine, sent := r.0.sent)
  {
    var step := QueueModel.Next(s.queue);
    var arg := if step.track.Some? then TrackArg(step.track.value) else NoTrack;
    (Played(s.(queue := step.queue), arg), if step.track.Some? then Continue else Crash)
  }

  /** `playlist_play_last`: the same with `prev_track`. */
  function PlayLastStep(s: Snapshot, height: int): (r: (Snapshot, Outcome))
    requires Consistent(s, height)
    ensures Consistent(r.0, height) && r.1 != Quit
    ensures r.1 == Crash <==> !QueueModel.HasPrevious(s.queue)
    ensures r.0 == s.(queue := r.0.queue, nowPlaying := r.0.nowPlaying, nowPlayingLine := r.0.nowPlayingLine, sent := r.0.sent)
  {
    var step := QueueModel.Prev(s.queue);
    var arg := if step.track.Some? then TrackArg(step.track.value) else NoTrack;
    (Played(s.(queue := step.queue), arg), if step.track.Some? then Continue else Crash)
  }

  /** `playlist_add_highlighted_track` (corrected lookup). */
  function AddHighlightedStep(s: Snapshot, height: int): (r: (Snapshot, Outcome))
    requires Consistent(s, height)
    ensures Consistent(r.0, height) && r.1 != Quit
    ensures r.1 == Crash <==> s.history.current == []
    ensures r.0 == s.(queue := r.0.queue)
  {
    var t := Screens.HighlightedTrack(s.view, height);
    if t.None? then (s, Crash) else (s.(queue := QueueModel.AddTrack(s.queue, t.value)), Continue)
  }

  /** The action `self.commands` binds to each command, on the session state. */
  function Perform(c: Command, ev: KeyEvent, s: Snapshot, height: int): (r: (Snapshot, Outcome))
    requires Consistent(s, height)
    ensures Consistent(r.0, height)
    ensures r.1 != Quit
    ensures r.0.repeatOne == s.repeatOne && r.0.closing == s.closing && r.0.pauseCount == s.pauseCount
    ensures r.1 == Crash <==>
      || c == ToggleRepeatOneTrack
      || (c == Search && |ev.typed| > 2 && SpotifyModel.TrackSearch(ev.fetched).None?)
      || ((c == PlayHighlightedTrack || c == PlaylistAddHighlightedTrack) && s.history.current == [])
      || (c == PlaylistPlayNext && !QueueModel.HasNext(s.queue))
      || (c == PlaylistPlayLast && !QueueModel.HasPrevious(s.queue))
    ensures r.0.queue != s.queue ==>
      c in {PlaylistPlayNext, PlaylistPlayLast, PlaylistClearPlaylist, PlaylistAddHighlightedTrack, PlaylistAddAllTracks}
    ensures r.0.history != s.history ==> c in {Search, ForwardHistory, BackHistory}
    ensures r.0.sent != s.sent ==> c in {PlayHighlightedTrack, PlayPause, PlaylistPlayNext, PlaylistPlayLast}
    ensures r.0.nowPlaying != s.nowPlaying ==> c in {PlayHighlightedTrack, PlaylistPlayNext, PlaylistPlayLast}
  {
    match c
    case Search => SearchStep(ev.typed, ev.fetched, s, height)
    case PlayHighlightedTrack => PlayHighlightedStep(s, height)
    case PlayPause => (s.(sent := s.sent + [TogglePlayPause]), Continue)
    case MoveUp => (s.(view := Screens.Moved(s.view, height, 1)), Continue)
    case MoveDown => (s.(view := Screens.Moved(s.view, height, -1)), Continue)
    case ForwardHistory => (ForwardStep(s, height), Continue)
    case BackHistory => (BackStep(s, height), Continue)
    // the player has no `toggle_repeat_one_track`: the attribute lookup raises
    case ToggleRepeatOneTrack => (s, Crash)
    case PlaylistPlayNext => PlayNextStep(s, height)
    case PlaylistPlayLast => PlayLastStep(s, height)
    case PlaylistClearPlaylist => (s.(queue := QueueModel.Clear(s.queue)), Continue)
    case PlaylistAddHighlightedTrack => AddHighlightedStep(s, height)
    case PlaylistAddAllTracks => (s.(queue := QueueModel.AddTracks(s.queue, s.history.current)), Continue)
  }

  /** One iteration of `listen_for_commands`: redraw the current results, then run the
      key's command, quit on 'q' (stopping the watcher), or ignore the key. Because
      the browser already shows the current results, the redraw changes nothing. */
  function KeyStep(ev: KeyEvent, s: Snapshot, height: int): (r: (Snapshot, Outcome))
    requires Consistent(s, height)
    ensures Consistent(r.0, height)
    ensures CommandFor(ev.key).Some? ==> r == Perform(CommandFor(ev.key).value, ev, s, height)
    ensures ev.key == 'q' ==> r == (s.(closing := true), Quit)
    ensures CommandFor(ev.key).None? && ev.key != 'q' ==> r == (s, Continue)
  {
    var drawn := s.(view := Screens.Draw(s.view, s.history.current));
    assert drawn == s;
    var command := CommandFor(ev.key);
    if command.Some? then Perform(command.value, ev, drawn, height)
    else if ev.key == 'q' then (drawn.(closing := true), Quit)
    else (drawn, Continue)
  }

  /** `listen_for_commands` over the keys pressed: the state after them, how the loop
      ended, and how many keys it handled. */
  function Listen(events: seq<KeyEvent>, s: Snapshot, height: int): (r: (Snapshot, Outcome, nat))
    requires Consistent(s, height)
    ensures Consistent(r.0, height) && r.2 <= |events|
    ensures r.0.repeatOne == s.repeatOne
    ensures r.1 == Continue ==> r.2 == |events| && forall i :: 0 <= i < |events| ==> events[i].key != 'q'
    ensures r.1 == Quit ==> 0 < r.2 && events[r.2 - 1].key == 'q' && r.0.closing
    ensures forall i :: 0 <= i < r.2 - 1 ==> events[i].key != 'q'
    decreases |events|
  {
    if events == [] then (s, Continue, 0)
    else
      var step := KeyStep(events[0], s, height);
      if step.1 != Continue then (step.0, step.1, 1)
      else
        var rest := Listen(events[1..], step.0, height);
        (rest.0, rest.1, rest.2 + 1)
  }

  /** A run over a suffix of the keys, counted from the start of the whole sequence. */
  function Shifted(r: (Snapshot, Outcome, nat), n: nat): (Snapshot, Outcome, nat)
  {
    (r.0, r.1, r.2 + n)
  }

  /** The run over the keys from `k` on: handle the key at `k`, then stop or go on. */
  lemma ListenUnfold(events: seq<KeyEvent>, k: nat, s: Snapshot, height: int)
    requires Consistent(s, height) && k < |events|
    ensures var step := KeyStep(events[k], s, height);
      Listen(events[k..], s, height) ==
        if step.1 != Continue then (step.0, step.1, 1)
        else Shifted(Listen(events[k + 1..], step.0, height), 1)
  {
    var rest := events[k..];
    assert rest[0] == events[k] && rest[1..] == events[k + 1..];
  }

  lemma ShiftedTwice(total: (Snapshot, Outcome, nat), r: (Snapshot, Outcome, nat), k: nat)
    requires total == Shifted(Shifted(r, 1), k)
    ensures total == Shifted(r, k + 1)
  {
  }

  /** Back then forward with the keys 'h' and 'l' restores the history and the results
      on view, and touches nothing else the user can see. */
  lemma BackThenForwardKeys(s: Snapshot, height: int, back: KeyEvent, forward: KeyEvent)
    requires Consistent(s, height) && s.history.back != []
    requires back.key == 'h' && forward.key == 'l'
    ensures var first := KeyStep(back, s, height);
      var second := KeyStep(forward, first.0, height);
      && first.1 == Continue && second.1 == Continue
      && second.0.history == s.history
      && second.0.view.results == s.view.results
      && second.0.queue == s.queue && second.0.nowPlaying == s.nowPlaying && second.0.sent == s.sent
  {
    BackThenForward(s.history);
  }

  /** 'C' then 'A' leaves the playlist holding exactly the current results, with the
      cursor before the first of them. */
  lemma ClearThenAddAllKeys(s: Snapshot, height: int, clear: KeyEvent, addAll: KeyEvent)
    requires Consistent(s, height) && clear.key == 'C' && addAll.key == 'A'
    ensures var r := KeyStep(addAll, KeyStep(clear, s, height).0, height);
      r.1 == Continue && r.0.queue == QueueModel.Queue(s.history.current, -1)
  {
  }

  /** 'C', '+', 'L': the highlighted result is queued alone and then played. */
  lemma QueueAndPlayHighlightedKeys(s: Snapshot, height: int, clear: KeyEvent, add: KeyEvent, next: KeyEvent)
    requires Consistent(s, height) && s.history.current != []
    requires clear.key == 'C' && add.key == '+' && next.key == 'L'
    ensures var t := Screens.HighlightedTrack(s.view, height).value;
      var r := Listen([clear, add, next], s, height);
      && r.1 == Continue && r.2 == 3
      && r.0.nowPlaying == TrackArg(t)
      && r.0.sent == s.sent + [Play(TrackArg(t))]
      && r.0.queue == QueueModel.Queue([t], 0)
  {
    var t := Screens.HighlightedTrack(s.view, height).value;
    assert CommandFor(clear.key) == Some(PlaylistClearPlaylist);
    var s1 := KeyStep(clear, s, height);
    assert s1 == Perform(PlaylistClearPlaylist, clear, s, height);
    assert s1 == (s.(queue := QueueModel.Empty()), Continue);
    assert CommandFor(add.key) == Some(PlaylistAddHighlightedTrack);
    var s2 := KeyStep(add, s1.0, height);
    assert s2 == AddHighlightedStep(s1.0, height);
    assert s1.0.view == s.view && QueueModel.Empty<Item>().tracks + [t] == [t];
    assert s2 == (s1.0.(queue := QueueModel.Queue([t], -1)), Continue);
    assert CommandFor(next.key) == Some(PlaylistPlayNext);
    var s3 := KeyStep(next, s2.0, height);
    assert s3 == (Played(s2.0.(queue := QueueModel.Queue([t], 0)), TrackArg(t)), Continue);
    assert [clear, add, next][1..] == [add, next] && [add, next][1..] == [next];
    assert Listen([next], s2.0, height) == (s3.0, Continue, 1);
  }

  // ---------------------------------------------------------------------------
  // The session object
  // ---------------------------------------------------------------------------

  class Spoticon {
    const playlist: Playlists.Playlist<Item>
    const searchScreen: Screens.SearchScreen
    var nowPlaying: PlayArg
    /** The text last drawn in the now-playing window. */
    var nowPlayingLine: string
    var repeatOneSong: bool
    var results: seq<Item>
    var backHistory: seq<seq<Item>>
    var forwardHistory: seq<seq<Item>>
    var closePlayerListener: bool
    var pauseCount: int
    /** The commands sent to the external player, oldest first. */
    var sent: seq<PlayerCommand>

    function HistoryState(): History
      reads this
    {
      History(backHistory, results, forwardHistory)
    }

    /** The session's fields, the playlist's and the browser's, as one value. */
    function Snap(): Snapshot
      reads this, playlist, searchScreen
    {
      Snapshot(HistoryState(), nowPlaying, nowPlayingLine, repeatOneSong, pauseCount, sent,
               closePlayerListener, playlist.State(), searchScreen.State())
    }

    ghost predicate Valid()
      reads this, playlist, searchScreen
    {
      playlist.Valid() && searchScreen.Valid() && Consistent(Snap(), searchScreen.height)
    }

    /** `__init__` up to the start of the threads: the result window is the terminal
        height less the six rows of the now-playing window. */
    constructor (screenHeight: int)
      requires screenHeight - 6 >= 1
      ensures Valid() && fresh(playlist) && fresh(searchScreen)
      ensures playlist.State() == QueueModel.Empty()
      ensures searchScreen.State() == Screens.Fresh() && searchScreen.height == screenHeight - 6
      ensures nowPlaying == NoTrack && !repeatOneSong && !closePlayerListener && pauseCount == 0
      ensures HistoryState() == History([], [], []) && sent == []
      ensures Snap() == Snapshot(History([], [], []), NoTrack, "", false, 0, [], false,
                                 QueueModel.Empty(), Screens.Fresh())
    {
      playlist := new Playlists.Playlist<Item>();
      searchScreen := new Screens.SearchScreen(screenHeight - 6);
      nowPlaying := NoTrack;
      nowPlayingLine := "";
      repeatOneSong := false;
      results := [];
      backHistory := [];
      forwardHistory := [];
      closePlayerListener := false;
      pauseCount := 0;
      sent := [];
    }

    /** `play_track`: record the track as now playing, send it to the player and draw
        the now-playing line. Drawing reads the track's fields, so anything but a
        record raises there (`ok` is false). */
    method PlayTrack(track: PlayArg) returns (ok: bool)
      modifies this
      ensures nowPlaying == track && sent == old(sent) + [Play(track)]
      ensures ok <==> track.TrackArg?
      ensures nowPlayingLine == if ok then Screens.FormatNowPlaying(track.item) else old(nowPlayingLine)
      ensures repeatOneSong == old(repeatOneSong) && pauseCount == old(pauseCount)
      ensures closePlayerListener == old(closePlayerListener)
      ensures HistoryState() == old(HistoryState())
      ensures Snap() == Played(old(Snap()), track)
    {
      nowPlaying := track;
      sent := sent + [Play(track)];
      if track.TrackArg? {
        nowPlayingLine := Screens.FormatNowPlaying(track.item);
        ok := true;
      } else {
        ok := false;
      }
    }

    /** One tick of `listen_for_track_advance`, as written. `alive` is false when the
        tick raised, which ends the watcher thread. */
    method WatcherTick(state: string, position: string) returns (alive: bool)
      requires Valid()
      modifies this
      ensures Valid()
      ensures repeatOneSong == old(repeatOneSong) && HistoryState() == old(HistoryState())
      ensures closePlayerListener == old(closePlayerListener)
      ensures !Idle(state, position) ==>
        alive && pauseCount == 0 && nowPlaying == old(nowPlaying) && sent == old(sent)
      ensures Idle(state, position) && IsSet(old(nowPlaying)) && repeatOneSong ==>
        sent == old(sent) + [Play(old(nowPlaying))] && nowPlaying == old(nowPlaying)
        && pauseCount == old(pauseCount) && (alive <==> old(nowPlaying).TrackArg?)
      ensures Idle(state, position) && !(IsSet(old(nowPlaying)) && repeatOneSong) && playlist.HasNextTrack() ==>
        if old(pauseCount) < 2 then
          alive && pauseCount == old(pauseCount) + 1 && sent == old(sent) && nowPlaying == old(nowPlaying)
        else
          // the queue method itself is played, which raises when it is drawn
          !alive && pauseCount == old(pauseCount) && nowPlaying == NextTrackMethod
          && sent == old(sent) + [Play(NextTrackMethod)]
      ensures Idle(state, position) && !(IsSet(old(nowPlaying)) && repeatOneSong) && !playlist.HasNextTrack() ==>
        alive && pauseCount == old(pauseCount) && nowPlaying == old(nowPlaying) && sent == old(sent)
      ensures nowPlayingLine ==
        if Idle(state, position) && repeatOneSong && old(nowPlaying).TrackArg? then Screens.FormatNowPlaying(old(nowPlaying).item)
        else old(nowPlayingLine)
    {
      alive := true;
      if (state == "paused" || state == "stopped") && position == "0.0" {
        if IsSet(nowPlaying) && repeatOneSong {
          alive := PlayTrack(nowPlaying);
        } else if playlist.HasNextTrack() {
          if pauseCount >= 2 {
            // drawing the method raises, so the reset of the count after it is never reached
            alive := PlayTrack(NextTrackMethod);
          } else {
            pauseCount := pauseCount + 1;
          }
        }
      } else {
        pauseCount := 0;
      }
    }

    /** The tick as evidently intended: the queue's next track is fetched (advancing the
        cursor) and played, and the pause count is reset. */
    method WatcherTickCorrected(state: string, position: string) returns (alive: bool)
      requires Valid()
      modifies this, playlist
      ensures Valid()
      ensures repeatOneSong == old(repeatOneSong) && HistoryState() == old(HistoryState())
      ensures closePlayerListener == old(closePlayerListener)
      ensures var d := Decide(Idle(state, position), IsSet(old(nowPlaying)), repeatOneSong,
                              old(playlist.HasNextTrack()), old(pauseCount));
        && (d != Replay ==> alive && pauseCount == CountAfter(d, old(pauseCount)))
        && (d == Replay ==> sent == old(sent) + [Play(old(nowPlaying))] && pauseCount == old(pauseCount)
                            && nowPlaying == old(nowPlaying) && (alive <==> old(nowPlaying).TrackArg?)
                            && nowPlayingLine == (if alive then Screens.FormatNowPlaying(old(nowPlaying).item) else old(nowPlayingLine)))
        && (d == Advance ==>
              var step := QueueModel.Next(old(playlist.State()));
              && step.track.Some?
              && playlist.State() == step.queue
              && nowPlaying == TrackArg(step.track.value)
              && nowPlayingLine == Screens.FormatNowPlaying(step.track.value)
              && sent == old(sent) + [Play(TrackArg(step.track.value))])
        && (d != Advance ==> playlist.State() == old(playlist.State()))
        && (d == ResetCount || d == Wait || d == Nothing ==>
              sent == old(sent) && nowPlaying == old(nowPlaying) && nowPlayingLine == old(nowPlayingLine))
    {
      alive := true;
      if (state == "paused" || state == "stopped") && position == "0.0" {
        if IsSet(nowPlaying) && repeatOneSong {
          alive := PlayTrack(nowPlaying);
        } else if playlist.HasNextTrack() {
          if pauseCount >= 2 {
            AdvanceCorrected();
          } else {
            pauseCount := pauseCount + 1;
          }
        }
      } else {
        pauseCount := 0;
      }
    }

    /** The advance branch of the corrected tick: the queue's next track is played and
        the pause count is reset. */
    method AdvanceCorrected()
      requires Valid() && playlist.HasNextTrack()
      modifies this, playlist
      ensures Valid()
      ensures var step := QueueModel.Next(old(playlist.State()));
        && step.track.Some?
        && playlist.State() == step.queue
        && nowPlaying == TrackArg(step.track.value)
        && nowPlayingLine == Screens.FormatNowPlaying(step.track.value)
        && sent == old(sent) + [Play(TrackArg(step.track.value))]
      ensures pauseCount == 0 && repeatOneSong == old(repeatOneSong)
      ensures HistoryState() == old(HistoryState()) && closePlayerListener == old(closePlayerListener)
    {
      var next := playlist.NextTrack();
      var ok := PlayTrack(TrackArg(next.value));
      pauseCount := 0;
    }

    /** `search`: a query of more than two characters pushes non-empty current results
        on the back stack (the forward stack is kept) and shows the tracks found. */
    method Search(typed: string, fetched: seq<SpotifyModel.RawTrack>) returns (outcome: Outcome)
      requires Valid()
      modifies this, searchScreen
      ensures Valid()
      ensures outcome != Quit
      ensures |typed| <= 2 ==> outcome == Continue && HistoryState() == old(HistoryState())
                               && searchScreen.State() == old(searchScreen.State())
      ensures |typed| > 2 && outcome == Continue ==>
        var found := SpotifyModel.TrackSearch(fetched);
        && found.Some?
        && HistoryState() == SearchPush(old(HistoryState()), found.value["tracks"])
        && searchScreen.State() == Screens.Draw(old(searchScreen.State()), found.value["tracks"])
      ensures outcome == Crash ==>
        |typed| > 2 && SpotifyModel.TrackSearch(fetched).None?
        && results == old(results) && forwardHistory == old(forwardHistory)
        && backHistory == (if old(results) != [] then old(backHistory) + [old(results)] else old(backHistory))
      ensures nowPlaying == old(nowPlaying) && repeatOneSong == old(repeatOneSong)
      ensures pauseCount == old(pauseCount) && sent == old(sent)
      ensures (Snap(), outcome) == SearchStep(typed, fetched, old(Snap()), searchScreen.height)
    {
      outcome := Continue;
      if |typed| > 2 {
        if results != [] {
          backHistory := backHistory + [results];
        }
        var found := SpotifyModel.TrackSearch(fetched);
        if found.None? {
          // parsing the catalog's answer raised
          return Crash;
        }
        results := found.value["tracks"];
        var rows := searchScreen.DrawScreen(results);
      }
    }

    /** `search` as written: the dictionary `track_search` returns is stored as the
        results and handed to `draw_screen`, whose slice of it raises. Every query of
        more than two characters therefore ends the program, after the current results
        have been pushed on the back stack. */
    method SearchAsWritten(typed: string, fetched: seq<SpotifyModel.RawTrack>) returns (outcome: Outcome)
      requires Valid()
      modifies this
      ensures Valid()
      ensures |typed| <= 2 ==> outcome == Continue && HistoryState() == old(HistoryState())
      ensures |typed| > 2 ==> (outcome == Crash
        && backHistory == (if old(results) != [] then old(backHistory) + [old(results)] else old(backHistory)))
      ensures nowPlaying == old(nowPlaying) && sent == old(sent) && pauseCount == old(pauseCount)
      ensures |typed| <= 2 ==> Snap() == old(Snap())
      ensures repeatOneSong == old(repeatOneSong) && closePlayerListener == old(closePlayerListener)
              && nowPlayingLine == old(nowPlayingLine)
    {
      outcome := Continue;
      if |typed| > 2 {
        if results != [] {
          backHistory := backHistory + [results];
        }
        var found := SpotifyModel.TrackSearch(fetched);
        if found.None? {
          return Crash;
        }
        // `results` would now hold the map `found.value`, which `draw_screen` cannot slice
        return Crash;
      }
    }

    method ForwardHistoryCmd()
      requires Valid()
      modifies this, searchScreen
      ensures Valid()
      ensures HistoryState() == Forward(old(HistoryState()))
      ensures searchScreen.State() == Screens.Draw(old(searchScreen.State()), results)
      ensures nowPlaying == old(nowPlaying) && repeatOneSong == old(repeatOneSong)
      ensures pauseCount == old(pauseCount) && sent == old(sent)
      ensures Snap() == ForwardStep(old(Snap()), searchScreen.height)
    {
      if forwardHistory != [] {
        backHistory := backHistory + [results];
        results := forwardHistory[|forwardHistory| - 1];
        forwardHistory := forwardHistory[..|forwardHistory| - 1];
        var rows := searchScreen.DrawScreen(results);
      }
    }

    method BackHistoryCmd()
      requires Valid()
      modifies this, searchScreen
      ensures Valid()
      ensures HistoryState() == Back(old(HistoryState()))
      ensures searchScreen.State() == Screens.Draw(old(searchScreen.State()), results)
      ensures nowPlaying == old(nowPlaying) && repeatOneSong == old(repeatOneSong)
      ensures pauseCount == old(pauseCount) && sent == old(sent)
      ensures Snap() == BackStep(old(Snap()), searchScreen.height)
    {
      if backHistory != [] {
        forwardHistory := forwardHistory + [results];
        results := backHistory[|backHistory| - 1];
        backHistory := backHistory[..|backHistory| - 1];
        var rows := searchScreen.DrawScreen(results);
      }
    }

    /** `play_highlighted_track`, with the corrected highlighted lookup; on empty
        results the lookup raises. */
    method PlayHighlightedTrackCmd() returns (outcome: Outcome)
      requires Valid()
      modifies this
      ensures Valid()
      ensures outcome == Continue || outcome == Crash
      ensures outcome == Crash <==> results == []
      ensures outcome == Continue ==>
        var t := searchScreen.HighlightedTrackCorrected().value;
        nowPlaying == TrackArg(t) && sent == old(sent) + [Play(TrackArg(t))]
      ensures outcome == Crash ==> nowPlaying == old(nowPlaying) && sent == old(sent)
      ensures HistoryState() == old(HistoryState()) && repeatOneSong == old(repeatOneSong)
      ensures pauseCount == old(pauseCount)
      ensures (Snap(), outcome) == PlayHighlightedStep(old(Snap()), searchScreen.height)
    {
      var track := searchScreen.HighlightedTrackCorrected();
      if track.None? {
        return Crash;
      }
      var ok := PlayTrack(TrackArg(track.value));
      outcome := Continue;
    }

    /** `playlist_play_next`: play whatever `next_track` returns; with no next track
        that is None, which is recorded as now playing and then raises when drawn. */
    method PlaylistPlayNextCmd() returns (outcome: Outcome)
      requires Valid()
      modifies this, playlist
      ensures Valid()
      ensures var step := QueueModel.Next(old(playlist.State()));
        && playlist.State() == step.queue
        && nowPlaying == (if step.track.Some? then TrackArg(step.track.value) else NoTrack)
        && sent == old(sent) + [Play(nowPlaying)]
        && (outcome == Continue <==> step.track.Some?)
        && (outcome == Crash <==> step.track.None?)
      ensures HistoryState() == old(HistoryState()) && repeatOneSong == old(repeatOneSong)
      ensures pauseCount == old(pauseCount)
      ensures (Snap(), outcome) == PlayNextStep(old(Snap()), searchScreen.height)
    {
      var track := playlist.NextTrack();
      var ok := PlayTrack(if track.Some? then TrackArg(track.value) else NoTrack);
      outcome := if ok then Continue else Crash;
    }

    /** `playlist_play_last`: the same with `prev_track`. */
    method PlaylistPlayLastCmd() returns (outcome: Outcome)
      requires Valid()
      modifies this, playlist
      ensures Valid()
      ensures var step := QueueModel.Prev(old(playlist.State()));
        && playlist.State() == step.queue
        && nowPlaying == (if step.track.Some? then TrackArg(step.track.value) else NoTrack)
        && sent == old(sent) + [Play(nowPlaying)]
        && (outcome == Continue <==> step.track.Some?)
        && (outcome == Crash <==> step.track.None?)
      ensures HistoryState() == old(HistoryState()) && repeatOneSong == old(repeatOneSong)
      ensures pauseCount == old(pauseCount)
      ensures (Snap(), outcome) == PlayLastStep(old(Snap()), searchScreen.height)
    {
      var track := playlist.PrevTrack();
      var ok := PlayTrack(if track.Some? then TrackArg(track.value) else NoTrack);
      outcome := if ok then Continue else Crash;
    }

    /** `playlist_add_highlighted_track`, with the corrected highlighted lookup. */
    method PlaylistAddHighlightedTrackCmd() returns (outcome: Outcome)
      requires Valid()
      modifies playlist
      ensures Valid()
      ensures outcome == Continue || outcome == Crash
      ensures outcome == Crash <==> results == []
      ensures outcome == Continue ==>
        playlist.State() == QueueModel.AddTrack(old(playlist.State()), searchScreen.HighlightedTrackCorrected().value)
      ensures outcome == Crash ==> playlist.State() == old(playlist.State())
      ensures (Snap(), outcome) == AddHighlightedStep(old(Snap()), searchScreen.height)
    {
      var track := searchScreen.HighlightedTrackCorrected();
      if track.None? {
        return Crash;
      }
      playlist.AddTrack(track.value);
      outcome := Continue;
    }

    /** `playlist_add_all_tracks`: queue every current result, in order. */
    method PlaylistAddAllTracksCmd()
      requires Valid()
      modifies playlist
      ensures Valid()
      ensures playlist.State() == QueueModel.AddTracks(old(playlist.State()), results)
      ensures Snap() == old(Snap()).(queue := playlist.State())
    {
      playlist.AddTracks(results);
    }

    /** Runs the action the command table binds to a key: the session ends in the state
        `Perform` describes for that command. */
    method Execute(c: Command, ev: KeyEvent) returns (outcome: Outcome)
      requires Valid()
      modifies this, playlist, searchScreen
      ensures Valid()
      ensures outcome != Quit
      ensures repeatOneSong == old(repeatOneSong)
      ensures c == ToggleRepeatOneTrack ==> outcome == Crash
      ensures c == PlayPause ==> outcome == Continue && sent == old(sent) + [TogglePlayPause]
      ensures c == MoveUp ==> searchScreen.State() == Screens.Moved(old(searchScreen.State()), searchScreen.height, 1)
      ensures c == MoveDown ==> searchScreen.State() == Screens.Moved(old(searchScreen.State()), searchScreen.height, -1)
      ensures c == PlaylistClearPlaylist ==> playlist.State() == QueueModel.Empty()
      ensures (Snap(), outcome) == Perform(c, ev, old(Snap()), searchScreen.height)
    {
      outcome := Continue;
      match c
      case Search =>
        outcome := Search(ev.typed, ev.fetched);
      case PlayHighlightedTrack =>
        outcome := PlayHighlightedTrackCmd();
      case PlayPause =>
        sent := sent + [TogglePlayPause];
      case MoveUp =>
        searchScreen.Updown(1);
      case MoveDown =>
        searchScreen.Updown(-1);
      case ForwardHistory =>
        ForwardHistoryCmd();
      case BackHistory =>
        BackHistoryCmd();
      case ToggleRepeatOneTrack =>
        // the player has no `toggle_repeat_one_track`: the attribute lookup raises
        outcome := Crash;
      case PlaylistPlayNext =>
        outcome := PlaylistPlayNextCmd();
      case PlaylistPlayLast =>
        outcome := PlaylistPlayLastCmd();
      case PlaylistClearPlaylist =>
        playlist.ClearPlaylist();
      case PlaylistAddHighlightedTrack =>
        outcome := PlaylistAddHighlightedTrackCmd();
      case PlaylistAddAllTracks =>
        PlaylistAddAllTracksCmd();
    }

    /** One iteration of `listen_for_commands`: redraw the current results, then run the
        key's command, quit on 'q', or ignore the key. */
    method HandleKey(ev: KeyEvent) returns (outcome: Outcome)
      requires Valid()
      modifies this, playlist, searchScreen
      ensures Valid()
      ensures repeatOneSong == old(repeatOneSong)
      ensures outcome == Quit <==> ev.key == 'q'
      ensures outcome == Quit ==> closePlayerListener
      ensures CommandFor(ev.key).None? && ev.key != 'q' ==>
        outcome == Continue && HistoryState() == old(HistoryState()) && sent == old(sent)
        && nowPlaying == old(nowPlaying) && pauseCount == old(pauseCount)
        && playlist.State() == old(playlist.State())
        && searchScreen.State() == old(searchScreen.State())
      ensures (Snap(), outcome) == KeyStep(ev, old(Snap()), searchScreen.height)
    {
      var rows := searchScreen.DrawScreen(results);
      var command := CommandFor(ev.key);
      if command.Some? {
        outcome := Execute(command.value, ev);
      } else if ev.key == 'q' {
        // `quit`: stop the watcher (the terminal teardown is not modelled)
        closePlayerListener := true;
        outcome := Quit;
      } else {
        outcome := Continue;
      }
    }

    /** `listen_for_commands` over the keys the user presses: runs until 'q', until a
        handler raises, or until the keys run out. */
    method ListenForCommands(events: seq<KeyEvent>) returns (outcome: Outcome, handled: nat)
      requires Valid()
      modifies this, playlist, searchScreen
      ensures Valid()
      ensures handled <= |events|
      ensures repeatOneSong == old(repeatOneSong)
      ensures forall i :: 0 <= i < handled - 1 ==> events[i].key != 'q'
      ensures outcome == Continue ==> handled == |events| && forall i :: 0 <= i < |events| ==> events[i].key != 'q'
      ensures outcome == Quit ==> 0 < handled && events[handled - 1].key == 'q' && closePlayerListener
      ensures (Snap(), outcome, handled) == Listen(events, old(Snap()), searchScreen.height)
    {
      outcome, handled := HandleKeys(events);
    }

    /** One iteration of the loop: the run from key `k` on is this key's step followed,
        if it goes on, by the run from key `k + 1`. */
    method HandleKeyAt(events: seq<KeyEvent>, k: nat) returns (outcome: Outcome)
      requires Valid() && k < |events|
      modifies this, playlist, searchScreen
      ensures Valid()
      ensures outcome == Continue ==>
        Listen(events[k..], old(Snap()), searchScreen.height) == Shifted(Listen(events[k + 1..], Snap(), searchScreen.height), 1)
      ensures outcome != Continue ==> Listen(events[k..], old(Snap()), searchScreen.height) == (Snap(), outcome, 1)
    {
      ListenUnfold(events, k, Snap(), searchScreen.height);
      outcome := HandleKey(events[k]);
    }

    /** The loop of `listen_for_commands`: one `HandleKey` per key while the outcome is
        to go on. */
    method HandleKeys(events: seq<KeyEvent>) returns (outcome: Outcome, handled: nat)
      requires Valid()
      modifies this, playlist, searchScreen
      ensures Valid()
      ensures (Snap(), outcome, handled) == Listen(events, old(Snap()), searchScreen.height)
    {
      outcome := Continue;
      handled := 0;
      ghost var total := Listen(events, Snap(), searchScreen.height);
      assert events[handled..] == events;
      while handled < |events| && outcome == Continue
        invariant Valid()
        invariant handled <= |events|
        invariant outcome == Continue ==> total == Shifted(Listen(events[handled..], Snap(), searchScreen.height), handled)
        invariant outcome != Continue ==> total == (Snap(), outcome, handled)
        decreases |events| - handled
      {
        outcome := HandleKeyAt(events, handled);
        if outcome == Continue {
          ShiftedTwice(total, Listen(events[handled + 1..], Snap(), searchScreen.height), handled);
        }
        handled := handled + 1;
      }
    }
  }
}
