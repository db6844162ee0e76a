/**
 * What the session controller promises, stated about `Session.Step` and
 * about runs of several events.
 */
module Properties {
  import opened Wrappers
  import opened Whitespace
  import opened Session

  // ---------------------------------------------------------------------
  // Runs of events

  lemma {:induction false} RunAppend(s: HomeState, a: seq<Event>, b: seq<Event>)
    ensures Run(s, a + b) == Run(Run(s, a), b)
    decreases |a|
  {
    if a == [] {
      assert a + b == b;
    } else {
      var t := Step(s, a[0]);
      assert (a + b)[0] == a[0] && (a + b)[1..] == a[1..] + b;
      RunAppend(t.next, a[1..], b);
    }
  }

  lemma {:induction false} RequestsAppend(s: HomeState, a: seq<Event>, b: seq<Event>)
    ensures Requests(s, a + b) == Requests(s, a) + Requests(Run(s, a), b)
    decreases |a|
  {
    if a == [] {
      assert a + b == b;
    } else {
      var t := Step(s, a[0]);
      assert (a + b)[0] == a[0] && (a + b)[1..] == a[1..] + b;
      RequestsAppend(t.next, a[1..], b);
    }
  }

  /** The state and requests of a run, one event at a time. */
  lemma RunCons(s: HomeState, e: Event, es: seq<Event>)
    ensures Run(s, [e] + es) == Run(Step(s, e).next, es)
    ensures Requests(s, [e] + es) == (if Step(s, e).request == NoRequest then [] else [Step(s, e).request])
                                     + Requests(Step(s, e).next, es)
  {
    assert ([e] + es)[0] == e && ([e] + es)[1..] == es;
  }

  lemma PerformOne(a: Audio, c: AudioCommand)
    ensures PerformAll(a, [c]) == Perform(a, c)
  {
    assert [c][..0] == [];
  }

  // ---------------------------------------------------------------------
  // The playback invariant

  lemma InitialInv()
    ensures Inv(Initial())
  {
  }

  lemma {:induction false} SwitchAudio(a: Audio, url: Option<string>, paused: bool)
    ensures var cs := (if paused then [Pause] else []) + [Load(url), Play];
      && PerformAll(a, cs) == Audio(url, true)
      && forall k :: 0 < k < |cs| ==> !PerformAll(a, cs[..k]).playing
  {
    var cs := (if paused then [Pause] else []) + [Load(url), Play];
    var n := |cs|;
    assert cs[..n - 1][..n - 2] == cs[..n - 2];
    if paused {
      assert cs[..1] == [Pause];
      assert cs[..1][..0] == [];
      assert PerformAll(a, cs[..1]) == a.(playing := false);
    } else {
      assert cs[..n - 2] == [];
    }
    assert PerformAll(a, cs[..n - 1]) == Audio(url, false);
  }

  lemma StepPreservesInv(s: HomeState, e: Event)
    requires Inv(s)
    ensures Inv(Step(s, e).next)
  {
    if s.mounted && e.PlayPauseRequested? && !IsActive(s, e.song) {
      SwitchAudio(s.audio, e.song.preview, s.isPlaying);
    } else if s.mounted && e.PlayPauseRequested? {
      PerformOne(s.audio, Pause);
      PerformOne(s.audio, Play);
    } else if s.mounted && e.Teardown? {
      PerformOne(s.audio, Pause);
    }
  }

  lemma {:induction false} RunPreservesInv(s: HomeState, es: seq<Event>)
    requires Inv(s)
    ensures Inv(Run(s, es))
    decreases |es|
  {
    if es != [] {
      StepPreservesInv(s, es[0]);
      RunPreservesInv(Step(s, es[0]).next, es[1..]);
    }
  }

  /** Every state the component can reach honours the playback invariant. */
  lemma ReachableInv(es: seq<Event>)
    ensures Inv(Run(Initial(), es))
  {
    InitialInv();
    RunPreservesInv(Initial(), es);
  }

  // ---------------------------------------------------------------------
  // Play / pause

  /** The active song, while playing: pause it; nothing else changes. */
  lemma PauseActiveSong(s: HomeState, song: Song)
    requires s.mounted && IsActive(s, song) && s.isPlaying
    ensures var t := Step(s, PlayPauseRequested(song));
      && t.commands == [Pause]
      && !t.next.isPlaying && !t.next.audio.playing
      && t.next.currentlyPlaying == s.currentlyPlaying
      && t.next.audio.src == s.audio.src
      && t.next == s.(isPlaying := false, audio := s.audio.(playing := false))
      && t.request == NoRequest
  {
    PerformOne(s.audio, Pause);
  }

  /** The active song, while paused: resume it without reloading its source. */
  lemma ResumeActiveSong(s: HomeState, song: Song)
    requires s.mounted && IsActive(s, song) && !s.isPlaying
    ensures var t := Step(s, PlayPauseRequested(song));
      && t.commands == [Play]
      && t.next.isPlaying && t.next.audio.playing
      && t.next.currentlyPlaying == s.currentlyPlaying
      && t.next.audio.src == s.audio.src
      && t.next == s.(isPlaying := true, audio := s.audio.(playing := true))
      && t.request == NoRequest
  {
    PerformOne(s.audio, Play);
  }

  /**
   * Another song, or none active: pause whatever plays, load the new song's
   * preview (even an absent one), make it the active song and play it. Between
   * the old clip and the new one the element is never told to play.
   */
  lemma SwitchSong(s: HomeState, song: Song)
    requires s.mounted && !IsActive(s, song)
    ensures var t := Step(s, PlayPauseRequested(song));
      && t.commands == (if s.isPlaying then [Pause] else []) + [Load(song.preview), Play]
      && (forall k :: 0 < k < |t.commands| ==> !PerformAll(s.audio, t.commands[..k]).playing)
      && t.next.currentlyPlaying == Some(song)
      && t.next.isPlaying
      && t.next.audio == Audio(song.preview, true)
      && t.next == s.(currentlyPlaying := Some(song), isPlaying := true, audio := Audio(song.preview, true))
      && t.request == NoRequest
  {
    SwitchAudio(s.audio, song.preview, s.isPlaying);
  }

  /** Two presses on a song that is not active: it plays, then it is paused and stays the active song. */
  lemma PlayPauseTwice(s: HomeState, song: Song)
    requires s.mounted && !IsActive(s, song)
    ensures var r := Run(s, [PlayPauseRequested(song), PlayPauseRequested(song)]);
      && r.currentlyPlaying == Some(song)
      && !r.isPlaying
      && r.audio == Audio(song.preview, false)
  {
    var es := [PlayPauseRequested(song), PlayPauseRequested(song)];
    SwitchSong(s, song);
    var m := Step(s, es[0]).next;
    PauseActiveSong(m, song);
    RunCons(s, PlayPauseRequested(song), [PlayPauseRequested(song)]);
    RunCons(m, PlayPauseRequested(song), []);
  }

  /** "ended": the song is no longer reported playing, but stays the active song. */
  lemma ClipEndedKeepsSong(s: HomeState)
    requires s.mounted
    ensures var t := Step(s, ClipEnded);
      && !t.next.isPlaying
      && t.next.currentlyPlaying == s.currentlyPlaying
      && t.next == s.(isPlaying := false)
      && t.commands == [] && t.request == NoRequest
  {
  }

  /** "error": the song is no longer reported playing and the audio error message is shown. */
  lemma ClipErroredReports(s: HomeState)
    requires s.mounted
    ensures var t := Step(s, ClipErrored);
      && !t.next.isPlaying
      && t.next.error == "Error playing audio. Please try another song."
      && t.next.currentlyPlaying == s.currentlyPlaying
      && t.next == s.(isPlaying := false, error := AudioErrorMessage)
      && t.commands == []
  {
  }

  /** A rejected `play()` sets the message only: `isPlaying` keeps whatever value it had. */
  lemma PlayRejectedSetsOnlyError(s: HomeState)
    requires s.mounted
    ensures var t := Step(s, PlayRejected);
      && t.next.error == "Error playing audio. Please try another song."
      && t.next.isPlaying == s.isPlaying
      && t.next == s.(error := AudioErrorMessage)
      && t.commands == []
  {
  }

  /** Unmounting pauses the audio element and cancels the pending search timer. */
  lemma TeardownPauses(s: HomeState)
    requires s.mounted
    ensures var t := Step(s, Teardown);
      && t.commands == [Pause]
      && !t.next.audio.playing
      && t.next.pending == None
      && !t.next.mounted
  {
    PerformOne(s.audio, Pause);
  }

  /** After unmounting, no event changes the state, reaches the audio element or issues a request. */
  lemma {:induction false} NothingAfterTeardown(s: HomeState, es: seq<Event>)
    requires !s.mounted
    ensures Run(s, es) == s
    ensures Requests(s, es) == []
    ensures Commands(s, es) == []
    decreases |es|
  {
    if es != [] {
      NothingAfterTeardown(s, es[1..]);
    }
  }

  // ---------------------------------------------------------------------
  // Debounced search

  /** A blank query's timer clears the results and calls no lookup service. */
  lemma BlankQueryIssuesNoLookup(s: HomeState, q: string)
    requires s.mounted && s.pending == Some(q) && AllWhitespace(q)
    ensures var t := Step(s, TimerFired);
      && t.request == NoRequest
      && t.next.searchedSongs == []
      && t.next == s.(pending := None, searchedSongs := [])
  {
  }

  /** A non-blank query's timer sends exactly that query and turns loading on. */
  lemma QueryTimerLooksUp(s: HomeState, q: string)
    requires s.mounted && s.pending == Some(q) && !AllWhitespace(q)
    ensures var t := Step(s, TimerFired);
      && t.request == SuggestLookup(q)
      && t.next.loading
      && t.next == s.(pending := None, loading := true)
  {
  }

  /** With no timer scheduled, nothing fires. */
  lemma NoTimerNoLookup(s: HomeState)
    requires s.pending == None
    ensures Step(s, TimerFired) == Transition(s, [], NoRequest)
  {
  }

  /**
   * Keystrokes only reschedule the timer: the query is the last one typed,
   * and the timer holds that query unless no keystroke changed the query.
   */
  lemma {:induction false} TypingKeepsLatest(s: HomeState, qs: seq<string>)
    requires s.mounted && |qs| > 0
    ensures var r := Run(s, Typing(qs));
      && r.searchTerm == qs[|qs| - 1]
      && (r.pending == Some(qs[|qs| - 1]) ||
          (r.pending == s.pending && forall i :: 0 <= i < |qs| ==> qs[i] == s.searchTerm))
      && r == s.(searchTerm := qs[|qs| - 1], pending := r.pending)
    ensures Requests(s, Typing(qs)) == []
    decreases |qs|
  {
    assert Typing(qs)[1..] == Typing(qs[1..]);
    var m := Step(s, QueryChanged(qs[0])).next;
    if |qs| > 1 {
      TypingKeepsLatest(m, qs[1..]);
    }
  }

  /**
   * A burst of keystrokes, at least one of which changes the query, ending in
   * a non-blank query, then the timer (fired twice, to show it fires once):
   * exactly one lookup, for the final query.
   */
  lemma RapidTypingOneLookup(s: HomeState, qs: seq<string>)
    requires s.mounted && |qs| > 0
    requires exists i :: 0 <= i < |qs| && qs[i] != s.searchTerm
    requires !AllWhitespace(qs[|qs| - 1])
    ensures Requests(s, Typing(qs) + [TimerFired, TimerFired]) == [SuggestLookup(qs[|qs| - 1])]
  {
    var last := qs[|qs| - 1];
    TypingKeepsLatest(s, qs);
    var r := Run(s, Typing(qs));
    var i :| 0 <= i < |qs| && qs[i] != s.searchTerm;
    assert r.pending == Some(last);
    RequestsAppend(s, Typing(qs), [TimerFired, TimerFired]);
    QueryTimerLooksUp(r, last);
    var r1 := Step(r, TimerFired).next;
    NoTimerNoLookup(r1);
    RunCons(r, TimerFired, [TimerFired]);
    RunCons(r1, TimerFired, []);
  }

  /** A burst in which some keystroke changes the query, ending in a blank query, clears the results and issues no lookup at all. */
  lemma RapidTypingToBlank(s: HomeState, qs: seq<string>)
    requires s.mounted && |qs| > 0
    requires exists i :: 0 <= i < |qs| && qs[i] != s.searchTerm
    requires AllWhitespace(qs[|qs| - 1])
    ensures Requests(s, Typing(qs) + [TimerFired]) == []
    ensures Run(s, Typing(qs) + [TimerFired]).searchedSongs == []
  {
    var last := qs[|qs| - 1];
    TypingKeepsLatest(s, qs);
    var r := Run(s, Typing(qs));
    var i :| 0 <= i < |qs| && qs[i] != s.searchTerm;
    assert r.pending == Some(last);
    RunAppend(s, Typing(qs), [TimerFired]);
    RequestsAppend(s, Typing(qs), [TimerFired]);
    BlankQueryIssuesNoLookup(r, last);
    RunCons(r, TimerFired, []);
  }

  /** A successful lookup replaces the results wholesale (missing data reads as none) and clears the error. */
  lemma SuggestSuccessReplaces(s: HomeState, data: Option<seq<Song>>)
    requires s.mounted
    ensures var t := Step(s, SuggestSucceeded(data));
      && t.next.searchedSongs == (if data.Some? then data.value else [])
      && t.next.error == ""
      && !t.next.loading
      && t.next.selectedSong == s.selectedSong && t.next.lyrics == s.lyrics
      && t.next.currentlyPlaying == s.currentlyPlaying && t.next.isPlaying == s.isPlaying
      && t.next == s.(searchedSongs := data.GetOr([]), error := "", loading := false)
      && t.commands == [] && t.request == NoRequest
  {
  }

  /** A failed lookup empties the results and shows the search error. */
  lemma SuggestFailureClears(s: HomeState)
    requires s.mounted
    ensures var t := Step(s, SuggestFailed);
      && t.next.searchedSongs == []
      && t.next.error == "Failed to fetch songs. Please try again."
      && !t.next.loading
      && t.next == s.(searchedSongs := [], error := SearchErrorMessage, loading := false)
  {
  }

  // ---------------------------------------------------------------------
  // Selection and lyrics

  /** Selecting a song asks for exactly its artist name and title, and resets the lyrics slots. */
  lemma SelectionRequestsLyrics(s: HomeState, song: Song)
    requires s.mounted
    ensures var t := Step(s, SongSelected(song));
      && t.request == LyricsLookup(song.artist.name, song.title)
      && t.next.selectedSong == Some(song)
      && t.next.loading && t.next.error == "" && t.next.lyrics == ""
      && t.next.currentlyPlaying == s.currentlyPlaying && t.next.isPlaying == s.isPlaying
      && t.next.audio == s.audio && t.commands == []
      && t.next == s.(selectedSong := Some(song), loading := true, error := "", lyrics := "")
  {
  }

  /** A lyrics answer is stored as it came, line breaks and all. */
  lemma LyricsStoredVerbatim(s: HomeState, text: string)
    requires s.mounted
    ensures var t := Step(s, LyricsSucceeded(text));
      && t.next.lyrics == text
      && !t.next.loading
      && t.next == s.(lyrics := text, loading := false)
  {
  }

  lemma LyricsFailureReports(s: HomeState)
    requires s.mounted
    ensures var t := Step(s, LyricsFailed);
      && t.next.lyrics == ""
      && t.next.error == "Lyrics not found for this song."
      && !t.next.loading
      && t.next == s.(lyrics := "", error := LyricsErrorMessage, loading := false)
  {
  }

  /** Going back clears the selection, lyrics and error and leaves playback and results alone. */
  lemma BackToResultsKeepsPlayback(s: HomeState)
    requires s.mounted
    ensures var t := Step(s, BackToResults);
      && t.next.selectedSong == None && t.next.lyrics == "" && t.next.error == ""
      && t.next.currentlyPlaying == s.currentlyPlaying
      && t.next.isPlaying == s.isPlaying
      && t.next.audio == s.audio
      && t.next.searchedSongs == s.searchedSongs
      && t.commands == [] && t.request == NoRequest
      && t.next == s.(selectedSong := None, lyrics := "", error := "")
  {
  }

  /** A selection and its lyrics answer: one lookup, and the song selected with those lyrics. */
  lemma LyricsRound(s: HomeState, song: Song, text: string)
    requires s.mounted
    ensures var es := [SongSelected(song), LyricsSucceeded(text)];
      && Run(s, es) == s.(selectedSong := Some(song), error := "", lyrics := text, loading := false)
      && Requests(s, es) == [LyricsLookup(song.artist.name, song.title)]
  {
    var s1 := s.(selectedSong := Some(song), loading := true, error := "", lyrics := "");
    SelectionRequestsLyrics(s, song);
    RunCons(s, SongSelected(song), [LyricsSucceeded(text)]);
    RunCons(s1, LyricsSucceeded(text), []);
  }

  /** A selection whose lyrics lookup fails: one lookup, and the song selected with the lyrics error. */
  lemma LyricsFailRound(s: HomeState, song: Song)
    requires s.mounted
    ensures var es := [SongSelected(song), LyricsFailed];
      && Run(s, es) == s.(selectedSong := Some(song), error := LyricsErrorMessage, lyrics := "", loading := false)
      && Requests(s, es) == [LyricsLookup(song.artist.name, song.title)]
  {
    var s1 := s.(selectedSong := Some(song), loading := true, error := "", lyrics := "");
    SelectionRequestsLyrics(s, song);
    RunCons(s, SongSelected(song), [LyricsFailed]);
    RunCons(s1, LyricsFailed, []);
  }

  /** After a lyrics failure, selecting another song whose lyrics arrive clears the error and shows them. */
  lemma RetryAfterLyricsFailure(s: HomeState, a: Song, b: Song, text: string)
    requires s.mounted
    ensures var failed := Run(s, [SongSelected(a), LyricsFailed]);
      && failed.lyrics == "" && failed.error == LyricsErrorMessage
    ensures var r := Run(s, [SongSelected(a), LyricsFailed, SongSelected(b), LyricsSucceeded(text)]);
      && r.error == "" && r.lyrics == text && r.selectedSong == Some(b) && !r.loading
    ensures Requests(s, [SongSelected(a), LyricsFailed, SongSelected(b), LyricsSucceeded(text)])
      == [LyricsLookup(a.artist.name, a.title), LyricsLookup(b.artist.name, b.title)]
  {
    var fail := [SongSelected(a), LyricsFailed];
    var retry := [SongSelected(b), LyricsSucceeded(text)];
    LyricsFailRound(s, a);
    LyricsRound(Run(s, fail), b, text);
    RunAppend(s, fail, retry);
    RequestsAppend(s, fail, retry);
    assert fail + retry == [SongSelected(a), LyricsFailed, SongSelected(b), LyricsSucceeded(text)];
  }

  /**
   * Responses are not fenced: if the first selection's lyrics arrive after
   * the second's, they are what is stored, while the second song stays selected.
   */
  lemma StaleLyricsOverwrite(s: HomeState, a: Song, b: Song, textA: string, textB: string)
    requires s.mounted
    ensures var r := Run(s, [SongSelected(a), SongSelected(b), LyricsSucceeded(textB), LyricsSucceeded(textA)]);
      && r.selectedSong == Some(b) && r.lyrics == textA
  {
    var s1 := s.(selectedSong := Some(a), loading := true, error := "", lyrics := "");
    assert Step(s, SongSelected(a)).next == s1;
    var s2 := s1.(selectedSong := Some(b));
    assert Step(s1, SongSelected(b)).next == s2;
    var s3 := s2.(lyrics := textB, loading := false);
    assert Step(s2, LyricsSucceeded(textB)).next == s3;
    assert Step(s3, LyricsSucceeded(textA)).next == s3.(lyrics := textA);
    RunCons(s, SongSelected(a), [SongSelected(b), LyricsSucceeded(textB), LyricsSucceeded(textA)]);
    RunCons(s1, SongSelected(b), [LyricsSucceeded(textB), LyricsSucceeded(textA)]);
    RunCons(s2, LyricsSucceeded(textB), [LyricsSucceeded(textA)]);
    RunCons(s3, LyricsSucceeded(textA), []);
  }

  /**
   * One shared status slot: the lyrics answer turns loading off while the
   * search lookup it overlapped has not answered yet.
   */
  lemma SharedLoadingSlot(s: HomeState, q: string, song: Song, text: string)
    requires s.mounted && s.pending == Some(q) && !AllWhitespace(q)
    ensures var r := Run(s, [TimerFired, SongSelected(song), LyricsSucceeded(text)]);
      !r.loading
    ensures Requests(s, [TimerFired, SongSelected(song), LyricsSucceeded(text)])
      == [SuggestLookup(q), LyricsLookup(song.artist.name, song.title)]
  {
    var s1 := Step(s, TimerFired).next;
    var s2 := Step(s1, SongSelected(song)).next;
    RunCons(s, TimerFired, [SongSelected(song), LyricsSucceeded(text)]);
    RunCons(s1, SongSelected(song), [LyricsSucceeded(text)]);
    RunCons(s2, LyricsSucceeded(text), []);
  }
}
