/**
 * The choices the `Home` page's markup makes from the session state: which
 * result card is highlighted as playing, what the results area shows when
 * there are no results, and what the lyrics panel shows.
 */
module View {
  import opened Wrappers
  import opened Whitespace
  import opened Session
  import opened Properties

  /** `isThisSongPlaying` for one result card. */
  predicate IsThisSongPlaying(s: HomeState, song: Song) {
    s.isPlaying && IsActive(s, song)
  }

  /** What the results area holds while no song is selected. */
  datatype ResultsBody = SongGrid(songs: seq<Song>) | NoSongsFound | SearchPrompt

  function Results(s: HomeState): (b: ResultsBody)
    ensures b.SongGrid? <==> s.searchedSongs != []
    ensures b.SongGrid? ==> b.songs == s.searchedSongs
  {
    if |s.searchedSongs| > 0 then SongGrid(s.searchedSongs)
    else if !AllWhitespace(s.searchTerm) then NoSongsFound
    else SearchPrompt
  }

  /** The text shown in place of the grid; none while the grid is shown. */
  function ResultsMessage(b: ResultsBody): (m: string)
    ensures m == "" <==> b.SongGrid?
    ensures b == NoSongsFound ==> m == "No songs found"
    ensures b == SearchPrompt ==> m == "Search for a song to get started"
  {
    match b
    case SongGrid(_) => ""
    case NoSongsFound => "No songs found"
    case SearchPrompt => "Search for a song to get started"
  }

  /** What the lyrics panel of the selected song holds. */
  datatype LyricsBody = LyricsLoading | LyricsError(message: string) | LyricsText(text: string) | NoLyrics

  /** Loading first, then the error message, then the lyrics; nothing shows as lyrics but the stored non-empty text. */
  function LyricsPanel(s: HomeState): (p: LyricsBody)
    ensures p == LyricsLoading <==> s.loading
    ensures p.LyricsError? <==> !s.loading && s.error != ""
    ensures p.LyricsError? ==> p.message == s.error
    ensures p.LyricsText? <==> !s.loading && s.error == "" && s.lyrics != ""
    ensures p.LyricsText? ==> p.text == s.lyrics
  {
    if s.loading then LyricsLoading
    else if s.error != "" then LyricsError(s.error)
    else if s.lyrics != "" then LyricsText(s.lyrics)
    else NoLyrics
  }

  /** At most one song id is ever highlighted: the active one. */
  lemma HighlightIsUnique(s: HomeState, a: Song, b: Song)
    requires IsThisSongPlaying(s, a) && IsThisSongPlaying(s, b)
    ensures a.id == b.id == s.currentlyPlaying.value.id
  {
  }

  /**
   * The play button toggles: after a press on `song`, its card is highlighted
   * exactly when it was not before, and no card with another id is.
   */
  lemma PlayPauseTogglesHighlight(s: HomeState, song: Song)
    requires s.mounted
    ensures IsThisSongPlaying(Step(s, PlayPauseRequested(song)).next, song) <==> !IsThisSongPlaying(s, song)
    ensures forall other: Song :: other.id != song.id ==>
      !IsThisSongPlaying(Step(s, PlayPauseRequested(song)).next, other) || IsThisSongPlaying(s, other)
  {
    if !IsActive(s, song) {
      SwitchSong(s, song);
    }
  }

  /** The start-up prompt shows exactly when there are no results and the query is all whitespace. */
  lemma SearchPromptIffBlank(s: HomeState)
    ensures Results(s) == SearchPrompt <==> s.searchedSongs == [] && AllWhitespace(s.searchTerm)
    ensures Results(s) == NoSongsFound <==> s.searchedSongs == [] && !AllWhitespace(s.searchTerm)
    ensures ResultsMessage(Results(s)) == "Search for a song to get started" <==>
      s.searchedSongs == [] && AllWhitespace(s.searchTerm)
    ensures ResultsMessage(Results(s)) == "No songs found" <==>
      s.searchedSongs == [] && !AllWhitespace(s.searchTerm)
  {
  }

  /** Non-empty lyrics that arrive while no error is shown are displayed exactly as received. */
  lemma LyricsShownVerbatim(s: HomeState, text: string)
    requires s.mounted && s.error == "" && text != ""
    ensures LyricsPanel(Step(s, LyricsSucceeded(text)).next) == LyricsText(text)
  {
  }

  lemma SearchRound(s: HomeState, q: string, songs: seq<Song>)
    requires s.mounted && q != s.searchTerm && !AllWhitespace(q)
    ensures var es := [QueryChanged(q), TimerFired, SuggestSucceeded(Some(songs))];
      && Run(s, es) == s.(searchTerm := q, pending := None, searchedSongs := songs, error := "", loading := false)
      && Requests(s, es) == [SuggestLookup(q)]
  {
    var s1 := s.(searchTerm := q, pending := Some(q));
    assert Step(s, QueryChanged(q)) == Transition(s1, [], NoRequest);
    var s2 := s1.(pending := None, loading := true);
    QueryTimerLooksUp(s1, q);
    RunCons(s, QueryChanged(q), [TimerFired, SuggestSucceeded(Some(songs))]);
    RunCons(s1, TimerFired, [SuggestSucceeded(Some(songs))]);
    RunCons(s2, SuggestSucceeded(Some(songs)), []);
  }

  /**
   * A search, then selecting its first result whose lyrics arrive: first the
   * query alone reaches the suggestion endpoint, then exactly the first result's
   * artist name and title reach the lyrics endpoint, and the panel shows the
   * text as received.
   */
  lemma SearchThenLyrics(s: HomeState, q: string, songs: seq<Song>, text: string)
    requires s.mounted && q != s.searchTerm && !AllWhitespace(q) && |songs| > 0 && text != ""
    ensures var es := [QueryChanged(q), TimerFired, SuggestSucceeded(Some(songs)), SongSelected(songs[0]), LyricsSucceeded(text)];
      && Requests(s, es) == [SuggestLookup(q), LyricsLookup(songs[0].artist.name, songs[0].title)]
      && Run(s, es).selectedSong == Some(songs[0])
      && Run(s, es).searchedSongs == songs
      && LyricsPanel(Run(s, es)) == LyricsText(text)
  {
    var search := [QueryChanged(q), TimerFired, SuggestSucceeded(Some(songs))];
    var lyrics := [SongSelected(songs[0]), LyricsSucceeded(text)];
    SearchRound(s, q, songs);
    LyricsRound(Run(s, search), songs[0], text);
    RunAppend(s, search, lyrics);
    RequestsAppend(s, search, lyrics);
    assert search + lyrics == [QueryChanged(q), TimerFired, SuggestSucceeded(Some(songs)), SongSelected(songs[0]), LyricsSucceeded(text)];
  }
}
