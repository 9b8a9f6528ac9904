/** spoticon/screens.py: the scrolling result browser (`Search_Screen`) and the line
    formatters of the result list and of the now-playing window. The curses window is
    not modelled; what is drawn is returned as a list of rows instead. */
module Screens {
  import opened Wrappers
  import opened Records

  function Min(a: int, b: int): int { if a <= b then a else b }
  function Max(a: int, b: int): int { if a >= b then a else b }

  // ---------------------------------------------------------------------------
  // The browser state as a value
  // ---------------------------------------------------------------------------

  /** The results a `Search_Screen` shows, the index of the first result on the page
      (`topLineNum`) and the highlighted row counted from the top of the PAGE
      (`highlightLineNum`). */
  datatype View = View(results: seq<Item>, top: int, highlight: int)

  /** The highlight stays on the page, and on a result when there are results. */
  predicate Inv(v: View, height: int)
  {
    && height >= 1
    && 0 <= v.top
    && 0 <= v.highlight < height
    && (v.results == [] ==> v.highlight == 0)
    && (v.results != [] ==> v.top + v.highlight < |v.results|)
  }

  /** The index in `results` of the row drawn highlighted. */
  function Position(v: View): int
  {
    v.top + v.highlight
  }

  function Clamp(x: int, lo: int, hi: int): int
  {
    if x < lo then lo else if x > hi then hi else x
  }

  /** A new screen: no results, top of the list. */
  function Fresh(): View
  {
    View([], 0, 0)
  }

  lemma FreshInv(height: int)
    requires height >= 1
    ensures Inv(Fresh(), height)
  {
  }

  /** The state part of `draw_screen`: results that are equal by value keep the scroll
      position and highlight; different results are stored and both are reset to 0. */
  function Draw(v: View, results: seq<Item>): (r: View)
    ensures r.results == results
    ensures results == v.results ==> r == v
    ensures results != v.results ==> r.top == 0 && r.highlight == 0
  {
    if results != v.results then View(results, 0, 0) else v
  }

  lemma DrawInv(v: View, results: seq<Item>, height: int)
    requires Inv(v, height)
    ensures Inv(Draw(v, results), height)
  {
  }

  /** The redraw at the head of every input-loop iteration does not undo a cursor
      movement: drawing the same results again is the identity. */
  lemma RedrawKeepsCursor(v: View, results: seq<Item>, height: int, increment: int)
    requires Inv(v, height)
    ensures Draw(Moved(Draw(v, results), height, increment), results)
         == Moved(Draw(v, results), height, increment)
  {
  }

  /** `updown`: paging first (scroll the page when the highlight is on the page's first
      row going up, or on its last row going down while results remain below), then
      highlight movement (unless already at the first or the last result). Increments
      other than -1 and +1 do nothing. */
  function Moved(v: View, height: int, increment: int): (r: View)
    requires Inv(v, height)
    ensures Inv(r, height) && r.results == v.results
    ensures increment != 1 && increment != -1 ==> r == v
    ensures v.results != [] && (increment == 1 || increment == -1) ==>
              Position(r) == Clamp(Position(v) + increment, 0, |v.results| - 1)
    ensures r.top == v.top || r.highlight == v.highlight
    ensures (increment == -1 && v.highlight > 0) || (increment == 1 && v.highlight < height - 1) ==>
              r.top == v.top
    ensures increment == -1 && v.highlight == 0 && v.top > 0 ==> r == v.(top := v.top - 1)
    ensures increment == 1 && v.highlight == height - 1 && Position(v) < |v.results| - 1 ==>
              r == v.(top := v.top + 1)
    ensures v.results == [] && (increment == 1 || increment == -1) ==>
              r == if increment == 1 && height == 1 then v.(top := v.top + 1)
                   else if increment == -1 && v.top > 0 then v.(top := v.top - 1)
                   else v
  {
    var next := v.highlight + increment;
    if increment == -1 && v.highlight == 0 && v.top != 0 then
      v.(top := v.top - 1)
    else if increment == 1 && next == height && v.top + height != |v.results| then
      v.(top := v.top + 1)
    else if increment == -1 && (v.top != 0 || v.highlight != 0) then
      v.(highlight := next)
    else if increment == 1 && v.top + v.highlight + 1 != |v.results| && v.highlight != |v.results| then
      v.(highlight := next)
    else
      v
  }

  /** Up at the very top changes nothing. */
  lemma UpAtTopIsNoOp(v: View, height: int)
    requires Inv(v, height) && v.top == 0 && v.highlight == 0
    ensures Moved(v, height, -1) == v
  {
  }

  /** Down on the last result changes nothing. */
  lemma DownAtLastIsNoOp(v: View, height: int)
    requires Inv(v, height) && v.results != [] && Position(v) == |v.results| - 1
    ensures Moved(v, height, 1) == v
  {
  }

  function MovedTimes(v: View, height: int, increment: int, n: nat): (r: View)
    requires Inv(v, height)
    ensures Inv(r, height)
    decreases n
  {
    if n == 0 then v else MovedTimes(Moved(v, height, increment), height, increment, n - 1)
  }

  /** Repeated moves up reach the first result and never go below it. */
  lemma {:induction false} UpRepeatedReachesTop(v: View, height: int, n: nat)
    requires Inv(v, height) && v.results != [] && n >= Position(v)
    ensures MovedTimes(v, height, -1, n).top == 0
    ensures MovedTimes(v, height, -1, n).highlight == 0
    decreases n
  {
    if n > 0 {
      var w := Moved(v, height, -1);
      if Position(v) == 0 {
        assert w == v;
      }
      UpRepeatedReachesTop(w, height, n - 1);
    }
  }

  /** Repeated moves down walk the highlight one result at a time and stop on the last
      result. */
  lemma {:induction false} DownRepeatedStopsAtLast(v: View, height: int, n: nat)
    requires Inv(v, height) && v.results != []
    ensures Position(MovedTimes(v, height, 1, n)) == Min(Position(v) + n, |v.results| - 1)
    decreases n
  {
    if n > 0 {
      DownRepeatedStopsAtLast(Moved(v, height, 1), height, n - 1);
    }
  }

  /** `results[top : top + height]` with Python's slice clamping. */
  function Page(v: View, height: int): (p: seq<Item>)
    requires Inv(v, height)
    ensures |p| <= height
    ensures p != [] ==> v.top + |p| <= |v.results|
    ensures forall i :: 0 <= i < |p| ==> p[i] == v.results[v.top + i]
    ensures v.top <= |v.results| ==> |p| == Min(height, |v.results| - v.top)
    ensures v.results != [] ==> v.highlight < |p|
  {
    if v.top >= |v.results| then [] else v.results[v.top .. Min(v.top + height, |v.results|)]
  }

  /** `get_highlighted_track` as written: it indexes the results with the page-relative
      highlight. Empty results have no such element (the lookup raises). */
  function HighlightedAsWritten(v: View, height: int): (r: Option<Item>)
    requires Inv(v, height)
    ensures r.Some? <==> v.results != []
    ensures r.Some? ==> r.value in v.results && r.value == v.results[v.highlight]
  {
    if v.results == [] then None else Some(v.results[v.highlight])
  }

  /** The highlighted result as intended: the one drawn in bold. */
  function HighlightedTrack(v: View, height: int): (r: Option<Item>)
    requires Inv(v, height)
    ensures r.Some? <==> v.results != []
    ensures r.Some? ==> r.value == Page(v, height)[v.highlight]
  {
    if v.results == [] then None else Some(v.results[Position(v)])
  }

  predicate Distinct(s: seq<Item>)
  {
    forall i, j :: 0 <= i < j < |s| ==> s[i] != s[j]
  }

  /** With distinct results, the as-written lookup returns the bold row exactly when the
      page is not scrolled. */
  lemma AsWrittenMatchesOnlyUnscrolled(v: View, height: int)
    requires Inv(v, height) && v.results != [] && Distinct(v.results)
    ensures HighlightedAsWritten(v, height) == HighlightedTrack(v, height) <==> v.top == 0
  {
  }

  /** A concrete run: three results on a two-row page, two moves down scroll the page
      by one; the bold row is the third result while `get_highlighted_track` returns
      the second. */
  lemma ScrolledLookupScenario(a: Item, b: Item, c: Item)
    requires a != b && b != c && a != c
    ensures var v := MovedTimes(Draw(Fresh(), [a, b, c]), 2, 1, 2);
      && v == View([a, b, c], 1, 1)
      && HighlightedTrack(v, 2) == Some(c)
      && HighlightedAsWritten(v, 2) == Some(b)
  {
  }

  // ---------------------------------------------------------------------------
  // Line formatting
  // ---------------------------------------------------------------------------

  function Spaces(n: nat): (r: string)
    ensures |r| == n && forall i :: 0 <= i < n ==> r[i] == ' '
  {
    seq(n, _ => ' ')
  }

  /** `s[:n]`: the longest prefix of at most `n` characters. */
  function Take(s: string, n: nat): (r: string)
    ensures |r| == Min(|s|, n) && r <= s
  {
    if |s| <= n then s else s[..n]
  }

  /** `'{:<w}'.format(s)`: padded on the right, never truncated. */
  function AlignLeft(s: string, width: nat): (r: string)
    ensures |r| == Max(|s|, width)
    ensures r[..|s|] == s && forall i :: |s| <= i < |r| ==> r[i] == ' '
  {
    if |s| >= width then s else s + Spaces(width - |s|)
  }

  /** `'{:>w}'.format(s)`: padded on the left, never truncated. */
  function AlignRight(s: string, width: nat): (r: string)
    ensures |r| == Max(|s|, width)
    ensures r[|r| - |s|..] == s && forall i :: 0 <= i < |r| - |s| ==> r[i] == ' '
  {
    if |s| >= width then s else Spaces(width - |s|) + s
  }

  /** `'{:^w}'.format(s)`: the smaller half of the padding on the left. */
  function AlignCenter(s: string, width: nat): (r: string)
    ensures |r| == Max(|s|, width)
    ensures var left := if |s| >= width then 0 else (width - |s|) / 2;
      && r[left..left + |s|] == s
      && (forall i :: 0 <= i < left ==> r[i] == ' ')
      && (forall i :: left + |s| <= i < |r| ==> r[i] == ' ')
  {
    if |s| >= width then s
    else
      var left := (width - |s|) / 2;
      Spaces(left) + s + Spaces(width - |s| - left)
  }

  /** `format_track`: name, album and artist truncated to 30, 20 and 20 characters in
      columns of 45 (left), 25 (centred) and 25 (right), separated by single spaces.
      Every field is shorter than its column, so every line is 97 characters wide. */
  function FormatTrack(t: Item): (r: string)
    requires t.Track?
    ensures |r| == 97
    ensures r[45] == ' ' && r[71] == ' '
    ensures var name := Take(t.trackName, 30);
      r[..|name|] == name && forall i :: |name| <= i < 45 ==> r[i] == ' '
    ensures var album := Take(t.albumName, 20);
      var left := 46 + (25 - |album|) / 2;
      && r[left..left + |album|] == album
      && (forall i :: 46 <= i < left ==> r[i] == ' ')
      && (forall i :: left + |album| <= i < 71 ==> r[i] == ' ')
    ensures var artist := Take(t.artistName, 20);
      r[97 - |artist|..] == artist && forall i :: 72 <= i < 97 - |artist| ==> r[i] == ' '
  {
    var name := AlignLeft(Take(t.trackName, 30), 45);
    var album := AlignCenter(Take(t.albumName, 20), 25);
    var artist := AlignRight(Take(t.artistName, 20), 25);
    var r := name + " " + album + " " + artist;
    assert r[..45] == name && r[46..71] == album && r[72..] == artist;
    r
  }

  /** `'{0}'.format(x)` of a value read with `dict.get`: a missing key prints as None. */
  function Show(field: Option<string>): string
  {
    match field
    case Some(s) => s
    case None => "None"
  }

  /** `format_now_playing`: " <name>   -   <artist>". */
  function FormatNowPlaying(item: Item): (r: string)
    ensures var name := Show(TrackNameField(item));
      var artist := Show(ArtistNameField(item));
      && |r| == |name| + |artist| + 8
      && r[0] == ' '
      && r[1..1 + |name|] == name
      && r[1 + |name|..|r| - |artist|] == "   -   "
      && r[|r| - |artist|..] == artist
  {
    " " + Show(TrackNameField(item)) + "   -   " + Show(ArtistNameField(item))
  }

  // ---------------------------------------------------------------------------
  // The drawn page
  // ---------------------------------------------------------------------------

  /** A line written to the result window, and whether it is written in bold. */
  datatype Row = Row(text: string, bold: bool)

  /** What the drawing loop of `draw_screen` writes: one formatted line per result on
      the page, bold on the page-relative highlight. */
  function PageRows(v: View, height: int): (rows: seq<Row>)
    requires Inv(v, height) && AllTracks(v.results)
    ensures |rows| == |Page(v, height)|
    ensures forall i :: 0 <= i < |rows| ==> rows[i] == Row(FormatTrack(Page(v, height)[i]), i == v.highlight)
  {
    var page := Page(v, height);
    seq(|page|, i requires 0 <= i < |page| => Row(FormatTrack(page[i]), i == v.highlight))
  }

  /** Exactly one row is bold when there are results, and it shows the highlighted
      result; no row is bold when there are none. */
  lemma BoldRowIsHighlighted(v: View, height: int)
    requires Inv(v, height) && AllTracks(v.results)
    ensures forall i :: 0 <= i < |PageRows(v, height)| ==> (PageRows(v, height)[i].bold <==> i == v.highlight)
    ensures v.results != [] ==>
      PageRows(v, height)[v.highlight] == Row(FormatTrack(HighlightedTrack(v, height).value), true)
    ensures v.results == [] ==> PageRows(v, height) == []
  {
  }

  // ---------------------------------------------------------------------------
  // The screen object
  // ---------------------------------------------------------------------------

  class SearchScreen {
    const height: int
    var results: seq<Item>
    var topLineNum: int
    var highlightLineNum: int

    function State(): View
      reads this
    {
      View(results, topLineNum, highlightLineNum)
    }

    ghost predicate Valid()
      reads this
    {
      Inv(State(), height)
    }

    constructor (lines: int)
      requires lines >= 1
      ensures Valid() && height == lines && State() == Fresh()
    {
      height := lines;
      results := [];
      topLineNum := 0;
      highlightLineNum := 0;
    }

    /** `draw_screen`: take the new results (resetting the cursor only if they differ)
        and draw the page. */
    method DrawScreen(newResults: seq<Item>) returns (rows: seq<Row>)
      requires Valid() && AllTracks(newResults)
      modifies this
      ensures Valid() && State() == Draw(old(State()), newResults)
      ensures rows == PageRows(State(), height)
    {
      if newResults != results {
        results := newResults;
        topLineNum := 0;
        highlightLineNum := 0;
      }
      rows := RenderPage();
    }

    /** The drawing loop of `draw_screen`, over the page slice. */
    method RenderPage() returns (rows: seq<Row>)
      requires Valid() && AllTracks(results)
      ensures rows == PageRows(State(), height)
    {
      var page := Page(State(), height);
      rows := [];
      var index := 0;
      while index < |page|
        invariant 0 <= index <= |page|
        invariant |rows| == index
        invariant forall i :: 0 <= i < index ==> rows[i] == Row(FormatTrack(page[i]), i == highlightLineNum)
      {
        var line := FormatTrack(page[index]);
        if index != highlightLineNum {
          rows := rows + [Row(line, false)];
        } else {
          rows := rows + [Row(line, true)];
        }
        index := index + 1;
      }
    }

    method Updown(increment: int)
      requires Valid()
      modifies this
      ensures Valid() && State() == Moved(old(State()), height, increment)
    {
      var nextLineNum := highlightLineNum + increment;
      // Paging
      if increment == -1 && highlightLineNum == 0 && topLineNum != 0 {
        topLineNum := topLineNum - 1;
        return;
      } else if increment == 1 && nextLineNum == height && topLineNum + height != |results| {
        topLineNum := topLineNum + 1;
        return;
      }
      // Scroll highlight line
      if increment == -1 && (topLineNum != 0 || highlightLineNum != 0) {
        highlightLineNum := nextLineNum;
      } else if increment == 1 && topLineNum + highlightLineNum + 1 != |results| && highlightLineNum != |results| {
        highlightLineNum := nextLineNum;
      }
    }

    /** `get_highlighted_track` as written (page-relative index); `None` where the
        lookup raises on empty results. */
    function GetHighlightedTrack(): (r: Option<Item>)
      reads this
      requires Valid()
      ensures r.Some? <==> results != []
      ensures r.Some? ==> r.value == results[highlightLineNum]
    {
      HighlightedAsWritten(State(), height)
    }

    /** The corrected lookup: the result drawn in bold. */
    function HighlightedTrackCorrected(): (r: Option<Item>)
      reads this
      requires Valid()
      ensures r.Some? <==> results != []
      ensures r.Some? ==> r.value == Page(State(), height)[highlightLineNum]
    {
      HighlightedTrack(State(), height)
    }
  }
}
