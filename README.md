# Spoticon core, modelled in Dafny

Spoticon is a terminal controller for a desktop music player. The user searches the
catalog, browses the tracks found in a scrolling list, plays one, queues tracks in a
playlist, and moves back and forward through earlier result lists. A watcher polls the
player and starts the next queued track when the current one has ended.

This project models the core of that program:

- `queue_model.dfy` (`QueueModel`): the play queue as a value. A track list and a cursor
  that starts at -1 and moves one step at a time. `play_queue.dfy` (`PlayQueues.PlayQueue`)
  and `playlist.dfy` (`Playlists.Playlist`) are the program's two queue classes. Their
  methods update fields in place and are proved against `QueueModel`.
- `screens.dfy` (`Screens`): the result browser. Its cursor (`topLineNum`,
  `highlightLineNum`) is the value `View`. `Moved` is the cursor movement, `Draw` the
  reset rule, `Page` the visible slice, and `FormatTrack`/`FormatNowPlaying` the line
  formats. The class `SearchScreen` is the program's `Search_Screen`, proved against
  those functions.
- `sorting.dfy` (`Sorting`): a stable sort by an integer key, ascending or descending.
  It is the reference for Python's `sorted`. `StableSortIsUnique` proves that every
  stable sort gives the same output.
- `spotify_model.dfy` (`SpotifyModel`): turning catalog records into flat result
  records (`parse_tracks`, `parse_albums`, `parse_artists`) and ordering them
  (`sort`, `track_search`, `get_album`).
- `session.dfy` (`Session`): the session controller `Spoticon`. It holds the key table,
  the back/forward history (the value `History`), the watcher's debounce rule, the
  session state as a value (`Snapshot`) with the effect of every command (`Perform`),
  of one key (`KeyStep`) and of a run of keys (`Listen`), and the class `Spoticon`
  with one method per command, each proved to change the session as those functions say.
- `records.dfy`, `wrappers.dfy`: the result records (`Item`) and `Option`.

The model describes the behaviour the program evidently intends, where the code as
written cannot run: as written, every search of more than two characters crashes the
program (main.py:115) and the watcher dies at its first advance (main.py:94). Those
members model the code as written and sit beside their corrected versions, which the
rest of the model uses; see "## Findings".

Where the program raises an exception, the model returns `None` or the outcome
`Crash`. An exception in a key handler ends the program. An exception in a watcher
tick ends the watcher thread.

## Model

| member | source | states |
|---|---|---|
| QueueModel.HasNext | spoticon/playQueue.py:25-28 | in a valid queue, "has next" holds exactly when the slot after the cursor holds a track |
| QueueModel.HasPrevious | spoticon/playQueue.py:30-33 | in a valid queue, "has previous" holds exactly when the cursor is at 1 or beyond, so there is no previous track from the first track or from -1; the slot before the cursor then holds a track |
| QueueModel.AddTrack | spoticon/playQueue.py:9-12 | appending keeps the cursor, keeps the queue valid and always leaves a next track |
| QueueModel.AddTracks | spoticon/playQueue.py:14-17 | appending a list keeps the cursor; a next track exists afterwards iff one existed before or the list is non-empty |
| QueueModel.Clear | spoticon/playQueue.py:19-23 | clearing gives the empty queue with cursor -1, with neither a next nor a previous track |
| QueueModel.Next | spoticon/playQueue.py:35-42 | a track comes back iff there is a next one; the cursor then moves by one onto that track; otherwise nothing changes |
| QueueModel.Prev | spoticon/playQueue.py:44-51 | a track comes back iff there is a previous one; the cursor then moves back by one; from index 0 or -1 nothing comes back and nothing changes |
| QueueModel.NextThenPrev | spoticon/playQueue.py:35-51 | one step forward and then back returns the track that was current and restores the queue |
| QueueModel.PrevThenNext | spoticon/playQueue.py:35-51 | one step back and then forward returns the track that was current and restores the queue |
| QueueModel.Run | spoticon/playQueue.py:3-51 | every sequence of queue calls keeps the cursor within [-1, length - 1] |
| QueueModel.NextTimesInOrder | spoticon/playQueue.py:35-42 | n successive next calls return the tracks after the cursor in order, then nothing; the cursor stops on the last track |
| QueueModel.ThreeTracksScenario | spoticon/playQueue.py:3-42 | three tracks queued on a new queue come back in order from three next calls; a fourth returns nothing and the cursor stays at 2 |
| PlayQueues.PlayQueue.constructor | spoticon/playQueue.py:3-7 | a new queue is empty with cursor -1 |
| PlayQueues.PlayQueue.AddTrack | spoticon/playQueue.py:9-12 | the fields become `QueueModel.AddTrack` of the old fields |
| PlayQueues.PlayQueue.AddTracks | spoticon/playQueue.py:14-17 | the fields become `QueueModel.AddTracks` of the old fields |
| PlayQueues.PlayQueue.ClearPlayQueue | spoticon/playQueue.py:19-23 | the fields become the empty queue, with no next and no previous track |
| PlayQueues.PlayQueue.NextTrack | spoticon/playQueue.py:35-42 | result and new fields are `QueueModel.Next` of the old fields; a track comes back iff `has_next_track` held; otherwise the object is unchanged |
| PlayQueues.PlayQueue.HasNextTrack | spoticon/playQueue.py:25-28 | the object's answer is `QueueModel.HasNext` of its fields |
| PlayQueues.PlayQueue.HasPreviousTrack | spoticon/playQueue.py:30-33 | the object's answer is `QueueModel.HasPrevious` of its fields |
| PlayQueues.PlayQueue.PrevTrack | spoticon/playQueue.py:44-51 | result and new fields are `QueueModel.Prev` of the old fields; a track comes back iff `has_previous_track` held; otherwise the object is unchanged |
| PlayQueues.ThreeTracksClient | spoticon/playQueue.py:3-51 | a caller that queues three tracks on a new queue gets them back in order from three `next_track` calls, nothing from a fourth, and the second track from a following `prev_track` |
| Playlists.Playlist.constructor | spoticon/playlist.py:3-5 | a new playlist is empty with cursor -1 |
| Playlists.Playlist.AddTrack | spoticon/playlist.py:7-8 | the fields become `QueueModel.AddTrack` of the old fields |
| Playlists.Playlist.AddTracks | spoticon/playlist.py:10-11 | the fields become `QueueModel.AddTracks` of the old fields |
| Playlists.Playlist.ClearPlaylist | spoticon/playlist.py:13-15 | the fields become the empty queue, with no next and no previous track |
| Playlists.Playlist.NextTrack | spoticon/playlist.py:23-28 | result and new fields are `QueueModel.Next` of the old fields; a track comes back iff `has_next_track` held |
| Playlists.Playlist.PrevTrack | spoticon/playlist.py:30-35 | result and new fields are `QueueModel.Prev` of the old fields; a track comes back iff `has_previous_track` held |
| Playlists.Playlist.HasNextTrack | spoticon/playlist.py:17-18 | the object's answer is `QueueModel.HasNext` of its fields |
| Playlists.Playlist.HasPreviousTrack | spoticon/playlist.py:20-21 | the object's answer is `QueueModel.HasPrevious` of its fields |
| Playlists.ThreeTracksClient | spoticon/playlist.py:3-35 | a caller that queues three tracks on a new playlist gets them back in order from three `next_track` calls, nothing from a fourth, and the second track from a following `prev_track` |
| Sorting.SortBy | spoticon/spotifyModel.py:9-10 | the reference sort returns a permutation of its input, ordered by the key, ascending or descending |
| Sorting.SortStable | spoticon/spotifyModel.py:9-10 | within every key class the sorted output keeps the input order, in both directions |
| Sorting.SortKeepsKeyClasses | spoticon/spotifyModel.py:9-10 | output and input agree on every key class |
| Sorting.SortedWithSameClassesEqual | spoticon/spotifyModel.py:9-10 | two orders that are both sorted and agree on every key class are equal |
| Sorting.StableSortIsUnique | spoticon/spotifyModel.py:9-10 | any sorted output that keeps every key class in input order (what Python's `sorted` returns) equals `SortBy` |
| SpotifyModel.Sort | spoticon/spotifyModel.py:9-10 | `sort` by a field every record carries returns a permutation, ordered by that field, with equal keys in input order |
| SpotifyModel.TrackInfo | spoticon/spotifyModel.py:54-64 | a track record copies name, number and uri; a truthy album or artist argument overrides the catalog's album name or first artist; popularity is present only for source "search" |
| SpotifyModel.ParsedTracks | spoticon/spotifyModel.py:51-67 | parsing fails iff some track has no artists and no artist override is given; otherwise one track record per input, sorted by popularity descending for "search", by track number ascending for "album", in input order for any other source |
| SpotifyModel.ParsedTracksStable | spoticon/spotifyModel.py:65-66 | tracks with equal sort keys keep their input order |
| SpotifyModel.ParseTracks | spoticon/spotifyModel.py:51-67 | the loop builds the records one by one and returns exactly `ParsedTracks`, failing where the lookup of the first artist raises |
| SpotifyModel.AlbumRecord | spoticon/spotifyModel.py:72-77 | an album record copies id, name and uri and has category "album" |
| SpotifyModel.ArtistRecord | spoticon/spotifyModel.py:83-89 | an artist record copies id, name, uri and popularity and has category "artist" |
| SpotifyModel.ParseAlbums | spoticon/spotifyModel.py:69-78 | one album record per catalog album, in input order |
| SpotifyModel.ParseArtists | spoticon/spotifyModel.py:80-90 | one artist record per catalog artist, most popular first, equally popular artists in input order |
| SpotifyModel.GetAlbum | spoticon/spotifyModel.py:45-49 | the single key "tracks" holds exactly `ParsedTracks` of the album's tracks with the album's name and source "album": track-number order, each carrying the album's name when that name is non-empty; fails iff a track has no artists |
| SpotifyModel.TrackSearch | spoticon/spotifyModel.py:12-16 | the single key "tracks" holds exactly `ParsedTracks` of the hits with source "search": one track per hit, each with a popularity, most popular first; fails iff a hit has no artists |
| Screens.FreshInv | spoticon/screens.py:12-14 | a new browser (no results, top 0, highlight 0) satisfies the cursor invariant |
| Screens.Draw | spoticon/screens.py:27-31 | the browser takes the new results; results equal by value keep the cursor, different results reset top and highlight to 0 |
| Screens.DrawInv | spoticon/screens.py:27-31 | drawing keeps the highlight on the page and on a result |
| Screens.RedrawKeepsCursor | spoticon/screens.py:27-31 | redrawing the same results at the head of the input loop does not undo a cursor move |
| Screens.Moved | spoticon/screens.py:46-61 | moving keeps the invariant and the results; with results, the highlighted position moves by one, clamped to the first and last result; only one of top and highlight changes; the page scrolls only at its first row going up and at its last row going down, and keeps `top` otherwise; other increments do nothing; with no results, +1 on a one-row page still scrolls `top` by one, and -1 scrolls back while `top` is positive |
| Screens.UpAtTopIsNoOp | spoticon/screens.py:50-59 | moving up on the first result of an unscrolled page changes nothing |
| Screens.DownAtLastIsNoOp | spoticon/screens.py:53-61 | moving down on the last result changes nothing |
| Screens.MovedTimes | spoticon/screens.py:46-61 | any number of moves keeps the cursor invariant |
| Screens.UpRepeatedReachesTop | spoticon/screens.py:46-61 | enough moves up reach the first result with the page scrolled back to the top |
| Screens.DownRepeatedStopsAtLast | spoticon/screens.py:46-61 | n moves down advance the highlighted position by n, stopping at the last result |
| Screens.Page | spoticon/screens.py:34-36 | the visible slice holds at most `height` results starting at `top`, and the highlight is on it when there are results |
| Screens.HighlightedAsWritten | spoticon/screens.py:24-25 | the lookup as written fails iff there are no results and otherwise returns the result at index `highlightLineNum` of the whole list |
| Screens.HighlightedTrack | spoticon/screens.py:24-25 | the corrected lookup returns exactly the result on the highlighted row of the page |
| Screens.AsWrittenMatchesOnlyUnscrolled | spoticon/screens.py:24-25 | with distinct results, the lookup as written returns the highlighted result iff the page is not scrolled |
| Screens.ScrolledLookupScenario | spoticon/screens.py:24-61 | three results on a two-row page, two moves down: the bold row shows the third result but the lookup as written returns the second |
| Screens.Take | spoticon/screens.py:22 | `s[:n]` is the prefix of length min(len(s), n) |
| Screens.AlignLeft | spoticon/screens.py:22 | `{:<w}` keeps the text first and pads with spaces to width w, never truncating |
| Screens.AlignRight | spoticon/screens.py:22 | `{:>w}` pads with spaces on the left, never truncating |
| Screens.AlignCenter | spoticon/screens.py:22 | `{:^w}` puts the smaller half of the padding on the left |
| Screens.FormatTrack | spoticon/screens.py:21-22 | a result line is 97 characters: name cut to 30 left in 45 columns, album cut to 20 centred in 25, artist cut to 20 right-aligned in 25, single spaces between; every other character is a space |
| Screens.FormatNowPlaying | spoticon/screens.py:75-76 | the now-playing line is a space, the name, "   -   ", then the artist, with "None" for a field the record lacks |
| Screens.PageRows | spoticon/screens.py:33-43 | one drawn row per result on the page, in order: row i shows the formatted i-th result of the page and is bold iff i is the highlighted row |
| Screens.BoldRowIsHighlighted | spoticon/screens.py:36-43 | exactly the highlighted row is bold and it shows the highlighted result; no rows are drawn without results |
| Screens.SearchScreen.constructor | spoticon/screens.py:6-16 | a new browser has no results and its cursor at the top |
| Screens.SearchScreen.DrawScreen | spoticon/screens.py:27-44 | the new state is `Draw` of the old one, and the rows drawn are the page of the new state |
| Screens.SearchScreen.RenderPage | spoticon/screens.py:33-44 | the drawing loop writes exactly `PageRows` of the current state, changing nothing |
| Screens.SearchScreen.Updown | spoticon/screens.py:46-61 | the new state is `Moved` of the old one |
| Screens.SearchScreen.GetHighlightedTrack | spoticon/screens.py:24-25 | as written: fails on empty results, otherwise returns the result at the page-relative highlight |
| Screens.SearchScreen.HighlightedTrackCorrected | spoticon/screens.py:24-25 | corrected: fails on empty results, otherwise returns the result on the highlighted row of the page |
| Session.Back | spoticon/main.py:177-181 | with a back entry, its top comes into view and the current results go onto the forward stack; with none, nothing changes; no list is lost |
| Session.Forward | spoticon/main.py:170-174 | the mirror image of `Back` |
| Session.SearchPush | spoticon/main.py:110-115 | a search shows the results found, pushes non-empty current results onto the back stack and keeps the forward stack |
| Session.BackThenForward | spoticon/main.py:170-181 | back then forward restores the history exactly |
| Session.ForwardThenBack | spoticon/main.py:170-181 | forward then back restores the history exactly |
| Session.SearchBackForward | spoticon/main.py:107-181 | with A shown, a search for B then back shows A; forward then shows B again |
| Session.SearchKeepsForward | spoticon/main.py:110-115 | after back and a new search, forward still leads to the list left by the back step |
| Session.BoundKey | spoticon/main.py:13-27 | the table maps each command's key back to that command, so no two commands share a key, and no command is bound to 'q' |
| Session.CommandFor | spoticon/main.py:13-27 | 'q' has no entry in the table |
| Session.BoundKeyOfCommand | spoticon/main.py:13-27 | a key the table maps to a command is that command's key |
| Session.Idle | spoticon/main.py:89 | a report of paused or stopped at position "0.0" is idle; a playing report, or any other position, is never idle |
| Session.Decide | spoticon/main.py:89-97 | each of the five outcomes holds exactly under its own condition: reset iff not idle; replay iff idle with something playing and repeat on; otherwise, with a next track queued, advance iff the count has reached 2 and wait iff it is below 2; nothing iff there is no next track |
| Session.CountAfter | spoticon/main.py:89-99 | the pause count stays in [0, 2]; it resets on a non-idle tick and after an advance, rises by one while waiting, and is kept on a replay |
| Session.RepeatOffIgnoresNowPlaying | spoticon/main.py:90-97 | with repeat off, a tick decides the same whether or not something is playing, so the debounce results below hold in both cases |
| Session.DecideWaitsBelowThreshold | spoticon/main.py:92-97 | idle with a next track queued and repeat off, whether or not something is playing, the watcher waits while the count is below 2 and advances at 2 |
| Session.Debounce | spoticon/main.py:85-100 | over any run of ticks the pause count stays in [0, 2] |
| Session.IdleRunAdvancesEveryThird | spoticon/main.py:89-99 | k consecutive idle ticks from count c give (c + k) / 3 advances and leave count (c + k) % 3, so from a reset count the third idle tick advances |
| Session.ShortPauseDoesNotAdvance | spoticon/main.py:89-99 | one or two idle ticks followed by a playing tick give no advance and a reset count |
| Session.SearchStep | spoticon/main.py:107-116 | corrected `search` on the session state: keeps the session invariant; crashes iff the query is longer than two characters and parsing fails; changes only the history and the browser |
| Session.BackStep | spoticon/main.py:177-181 | `back_history` on the session state keeps the invariant and changes only the history and the browser |
| Session.ForwardStep | spoticon/main.py:170-174 | `forward_history` on the session state keeps the invariant and changes only the history and the browser |
| Session.PlayHighlightedStep | spoticon/main.py:123-125 | keeps the invariant; crashes iff there are no results; changes only what is playing, the now-playing line and the commands sent |
| Session.PlayNextStep | spoticon/main.py:139-141 | keeps the invariant; crashes iff the playlist has no next track; changes only the playlist, what is playing, the now-playing line and the commands sent |
| Session.PlayLastStep | spoticon/main.py:143-145 | the same with no previous track |
| Session.AddHighlightedStep | spoticon/main.py:150-152 | keeps the invariant; crashes iff there are no results; changes only the playlist |
| Session.Perform | spoticon/main.py:107-181 | every command keeps the session invariant, never quits and never changes the repeat flag, the watcher flag or the pause count; it crashes exactly for 'r', a failed search, a highlighted lookup without results, and playing next or last with no such track; only playlist commands change the playlist, only search and history commands the history, only play commands what is sent and what is playing |
| Session.KeyStep | spoticon/main.py:68-76 | one loop iteration: a key in the table does exactly `Perform` of its command (the redraw changes nothing), 'q' quits and sets the watcher flag and changes nothing else, any other key changes nothing |
| Session.Listen | spoticon/main.py:68-76 | keys are handled in order until 'q', a crash or the end of input; it quits only on a 'q', with no earlier 'q'; the invariant and the repeat flag are kept |
| Session.BackThenForwardKeys | spoticon/main.py:170-181 | with a back entry, the keys 'h' then 'l' restore the history and the results on view, and leave the playlist and playback alone |
| Session.ClearThenAddAllKeys | spoticon/main.py:147-155 | the keys 'C' then 'A' leave the playlist holding exactly the current results, before the first of them |
| Session.QueueAndPlayHighlightedKeys | spoticon/main.py:139-152 | with results, the keys 'C', '+', 'L' queue the highlighted result alone and play it |
| Session.Spoticon.constructor | spoticon/main.py:29-63 | the session starts with an empty playlist, a browser of screen height less 6 rows, nothing playing, repeat off, empty history and count 0 |
| Session.Spoticon.PlayTrack | spoticon/main.py:118-121 | the argument becomes now playing and is sent to the player; the now-playing line is drawn for a record and raises for anything else |
| Session.Spoticon.WatcherTick | spoticon/main.py:85-100 | as written: a non-idle tick resets the count; idle with repeat replays; idle with a next track waits below 2 and at 2 plays the uncalled `next_track` method, which kills the watcher and leaves queue and count unchanged; the now-playing line is redrawn only on a successful replay |
| Session.Spoticon.WatcherTickCorrected | spoticon/main.py:85-100 | corrected: the count follows `CountAfter(Decide(..))`; an advance moves the playlist by `QueueModel.Next` and plays the track it returns; a replay keeps now-playing and succeeds iff it is a record; the now-playing line is redrawn only by a successful replay or an advance; other ticks leave playback unchanged |
| Session.Spoticon.Search | spoticon/main.py:107-116 | corrected: queries of two characters or fewer do nothing; longer ones update the history by `SearchPush` with the tracks found and redraw; a parse failure crashes after the push |
| Session.Spoticon.SearchAsWritten | spoticon/main.py:107-116 | as written: every query longer than two characters crashes, after the current results were pushed onto the back stack; a query of two characters or fewer changes nothing, and no query changes playback, the repeat flag or the watcher flag |
| Session.Spoticon.ForwardHistoryCmd | spoticon/main.py:170-174 | the history becomes `Forward` of the old one and the browser draws the new results; the whole state is `ForwardStep` of the old one |
| Session.Spoticon.BackHistoryCmd | spoticon/main.py:177-181 | the history becomes `Back` of the old one and the browser draws the new results; the whole state is `BackStep` of the old one |
| Session.Spoticon.PlayHighlightedTrackCmd | spoticon/main.py:123-125 | crashes iff there are no results; otherwise plays the highlighted result |
| Session.Spoticon.PlaylistPlayNextCmd | spoticon/main.py:139-141 | the playlist moves by `QueueModel.Next` and its result is played; with no next track, None is recorded as now playing and sent, and the program crashes |
| Session.Spoticon.PlaylistPlayLastCmd | spoticon/main.py:143-145 | the same with `QueueModel.Prev` |
| Session.Spoticon.PlaylistAddHighlightedTrackCmd | spoticon/main.py:150-152 | crashes iff there are no results; otherwise appends the highlighted result to the playlist |
| Session.Spoticon.PlaylistAddAllTracksCmd | spoticon/main.py:154-155 | appends all current results to the playlist, in order |
| Session.Spoticon.Execute | spoticon/main.py:107-181 | the session state and outcome after any command are exactly `Perform` of the old state; in particular 'r' crashes, play/pause sends one toggle, j and k move the browser by +1 and -1, clear empties the playlist |
| Session.Spoticon.HandleKey | spoticon/main.py:68-76 | the session state and outcome are exactly `KeyStep` of the old state: quits iff the key is 'q', then stops the watcher; a key outside the table changes nothing |
| Session.Spoticon.HandleKeys | spoticon/main.py:69-76 | the loop ends in exactly the state, outcome and key count `Listen` gives |
| Session.Spoticon.ListenForCommands | spoticon/main.py:68-76 | the session ends as `Listen` says: keys handled in order until 'q', a crash or the end of input; it quits only on a 'q', with no earlier 'q'; the repeat flag never changes |

## Left out

- Terminal drawing: the curses windows, borders, `refresh` and `Input_Screen` (screens.py:84-105) are not modelled. Drawn lines are returned as `Row`s. Typed search text arrives as a parameter.
- The catalog client and the player bridge: network calls and player scripting (spoticon/spotifyPlayer.py) are not modelled. Catalog answers arrive as sequences of raw records. Player reports are watcher-tick parameters. Commands sent to the player are recorded in `sent`.
- Threads, `time.sleep` and the race between the key loop and the watcher: each key handler and each watcher tick is one atomic step.
- `album_search`, `artist_search`, `full_search`, `get_artist` (spotifyModel.py:18-43): thin wrappers around network calls and the parsers modelled here. They are not modelled separately.
- `set_now_playing_scr` (main.py:163-168): nothing calls it, and it calls a player method that is not part of this model.
- main.py:113-114 set `topLineNum`/`highlightLineNum` on the session object, and nothing ever reads them. They are not modelled.
- SpotifyModel.ParsedTracks: only the raw-record fields the parser reads are modelled, and the record has no `category` field. `Records.Category` derives the category from the variant. A missing dictionary key in a catalog answer is not modelled, except for a track with no artists.
- Session.Spoticon.constructor: terminals of six rows or fewer are not modelled. The browser would get zero or fewer rows (main.py:43-48), and what such a window does is decided by the terminal library, which is not part of this model.
- Screens.SearchScreen.constructor: requires at least one row. With zero or fewer rows the program's cursor rules have no meaningful state.
- Session.Spoticon.Execute: `Session.Spoticon.Search` is the corrected search. The search as written crashes on every real query; see Findings.
- Session.Spoticon.PlayHighlightedTrackCmd and Session.Spoticon.PlaylistAddHighlightedTrackCmd use the corrected highlighted lookup; see Findings.
- Session.Debounce: counts advances with the corrected tick. As written, the first advance ends the watcher (`Session.Spoticon.WatcherTick`).
- Result items of kind playlist and section header, album art and a result set split into sections do not exist in this revision of the program. They are not modelled.
- The code differs from what the program evidently intends in three more places, and the model follows the code. A repeat-one replay keeps the pause count (main.py:91). The watcher advances on the third consecutive idle tick, not the second (main.py:93). A new search does not clear the forward history (main.py:110-115).
- Quitting: `quit` prints and restores the terminal. Only its effect on the watcher flag is modelled.

## Findings

| source | as written | input that shows it | evidently intended | confidence | as-written member | corrected member |
|---|---|---|---|---|---|---|
| spoticon/screens.py:24-25 | `get_highlighted_track` indexes the results with `highlightLineNum`, a row number on the page | three results on a two-row page, two moves down: the page scrolls by one, the bold row shows the third result and the lookup returns the second (`Screens.ScrolledLookupScenario`) | index with `topLineNum + highlightLineNum`, the result drawn in bold | high (not executed) | Screens.HighlightedAsWritten | Screens.HighlightedTrack |
| spoticon/main.py:94 | the watcher passes `self.playlist.next_track` without calling it, so the method object is played | two tracks queued, the first has ended, three idle ticks: the third sends the method to the player, drawing it raises, the watcher thread ends and the playlist cursor never moves (`Session.Spoticon.WatcherTick`) | call `next_track()` and play the track it returns | high (not executed) | Session.Spoticon.WatcherTick | Session.Spoticon.WatcherTickCorrected |
| spoticon/main.py:115 | `search` stores the dictionary `{'tracks': [...]}` that `track_search` returns as the result list | any query longer than two characters: `draw_screen` slices the dictionary and raises (`Session.Spoticon.SearchAsWritten`) | store `track_search(searchStr)['tracks']`, the list the browser and `add_tracks` expect | high (not executed) | Session.Spoticon.SearchAsWritten | Session.Spoticon.Search |
