/**
 * The `Home` component as an object: one mutable field per state slot, the
 * audio element behind `audioRef`, the one scheduled debounce timer, and one
 * method per handler, effect callback or asynchronous completion. Each method
 * updates the fields in place, in the order the handler does, and is proved to
 * reach exactly the state `Session.Step` prescribes for its event, to give the
 * audio element exactly that step's commands, and to keep the playback
 * invariant `Session.Inv`.
 */
module HomeComponent {
  import opened Wrappers
  import opened Whitespace
  import opened Session
  import opened Properties

  class Home {
    var searchTerm: string
    var searchedSongs: seq<Song>
    var selectedSong: Option<Song>
    var lyrics: string
    var loading: bool
    var error: string
    var currentlyPlaying: Option<Song>
    var isPlaying: bool
    var audio: Audio
    var pending: Option<string>
    var mounted: bool
    /** Every command given to the audio element so far, in order. */
    ghost var audioLog: seq<AudioCommand>

    function State(): HomeState
      reads this
    {
      HomeState(searchTerm, searchedSongs, selectedSong, lyrics, loading, error,
                currentlyPlaying, isPlaying, audio, pending, mounted)
    }

    ghost predicate Valid()
      reads this
    {
      Inv(State())
    }

    /** Mounting: every slot at its initial value and the empty query's timer scheduled. */
    constructor ()
      ensures Valid() && State() == Initial() && audioLog == []
    {
      searchTerm, searchedSongs, selectedSong, lyrics := "", [], None, "";
      loading, error := false, "";
      currentlyPlaying, isPlaying := None, false;
      audio := Audio(None, false);
      pending := Some("");
      mounted := true;
      audioLog := [];
    }

    /** One command to the audio element. */
    method Send(c: AudioCommand)
      modifies this`audio, this`audioLog
      ensures audio == Perform(old(audio), c)
      ensures audioLog == old(audioLog) + [c]
    {
      audio := Perform(audio, c);
      audioLog := audioLog + [c];
    }

    /** `handlePlayPause(song)` */
    method PlayPause(song: Song)
      requires Valid()
      modifies this
      ensures Valid()
      ensures State() == Step(old(State()), PlayPauseRequested(song)).next
      ensures audioLog == old(audioLog) + Step(old(State()), PlayPauseRequested(song)).commands
    {
      if !mounted {
        return;
      }
      ghost var before := State();
      if currentlyPlaying.Some? && currentlyPlaying.value.id == song.id {
        if isPlaying {
          Send(Pause);
          isPlaying := false;
          PerformOne(before.audio, Pause);
        } else {
          Send(Play);
          isPlaying := true;
          PerformOne(before.audio, Play);
        }
      } else {
        if isPlaying {
          Send(Pause);
        }
        Send(Load(song.preview));
        currentlyPlaying := Some(song);
        Send(Play);
        isPlaying := true;
        SwitchAudio(before.audio, song.preview, before.isPlaying);
      }
      StepPreservesInv(before, PlayPauseRequested(song));
    }

    /** The `.catch` of a `play()` call: the message only. */
    method PlayRejected()
      requires Valid()
      modifies this
      ensures Valid()
      ensures State() == Step(old(State()), Event.PlayRejected).next
      ensures audioLog == old(audioLog) + Step(old(State()), Event.PlayRejected).commands
    {
      if mounted {
        error := AudioErrorMessage;
      }
      StepPreservesInv(old(State()), Event.PlayRejected);
    }

    /** The "ended" listener. */
    method ClipEnded()
      requires Valid()
      modifies this
      ensures Valid()
      ensures State() == Step(old(State()), Event.ClipEnded).next
      ensures audioLog == old(audioLog) + Step(old(State()), Event.ClipEnded).commands
    {
      if mounted {
        isPlaying := false;
      }
      StepPreservesInv(old(State()), Event.ClipEnded);
    }

    /** The "error" listener. */
    method ClipErrored()
      requires Valid()
      modifies this
      ensures Valid()
      ensures State() == Step(old(State()), Event.ClipErrored).next
      ensures audioLog == old(audioLog) + Step(old(State()), Event.ClipErrored).commands
    {
      if mounted {
        error := AudioErrorMessage;
        isPlaying := false;
      }
      StepPreservesInv(old(State()), Event.ClipErrored);
    }

    /** Unmounting: both effects' cleanups run (the timer is cleared, the listeners are removed, the audio is paused). */
    method Teardown()
      requires Valid()
      modifies this
      ensures Valid()
      ensures State() == Step(old(State()), Event.Teardown).next
      ensures audioLog == old(audioLog) + Step(old(State()), Event.Teardown).commands
    {
      if !mounted {
        return;
      }
      ghost var before := State();
      pending := None;
      Send(Pause);
      mounted := false;
      PerformOne(before.audio, Pause);
      StepPreservesInv(before, Event.Teardown);
    }

    /** `setSearchTerm(term)`: a changed query cancels the scheduled timer and schedules one for `term`. */
    method QueryChanged(term: string)
      requires Valid()
      modifies this
      ensures Valid()
      ensures State() == Step(old(State()), Event.QueryChanged(term)).next
      ensures audioLog == old(audioLog) + Step(old(State()), Event.QueryChanged(term)).commands
    {
      if mounted && term != searchTerm {
        searchTerm := term;
        pending := Some(term);
      }
      StepPreservesInv(old(State()), Event.QueryChanged(term));
    }

    /** The debounce timer elapses and runs `fetchSongs` for the query it captured. */
    method TimerFired() returns (request: Request)
      requires Valid()
      modifies this
      ensures Valid()
      ensures State() == Step(old(State()), Event.TimerFired).next
      ensures request == Step(old(State()), Event.TimerFired).request
      ensures audioLog == old(audioLog) + Step(old(State()), Event.TimerFired).commands
    {
      request := NoRequest;
      if mounted && pending.Some? {
        var q := pending.value;
        pending := None;
        if AllWhitespace(q) {
          searchedSongs := [];
        } else {
          loading := true;
          request := SuggestLookup(q);
        }
      }
      StepPreservesInv(old(State()), Event.TimerFired);
    }

    /** The suggestion lookup answers; `data` is absent when the response has no `data` field. */
    method SuggestSucceeded(data: Option<seq<Song>>)
      requires Valid()
      modifies this
      ensures Valid()
      ensures State() == Step(old(State()), Event.SuggestSucceeded(data)).next
      ensures audioLog == old(audioLog) + Step(old(State()), Event.SuggestSucceeded(data)).commands
    {
      if mounted {
        searchedSongs := data.GetOr([]);
        error := "";
        loading := false;
      }
      StepPreservesInv(old(State()), Event.SuggestSucceeded(data));
    }

    method SuggestFailed()
      requires Valid()
      modifies this
      ensures Valid()
      ensures State() == Step(old(State()), Event.SuggestFailed).next
      ensures audioLog == old(audioLog) + Step(old(State()), Event.SuggestFailed).commands
    {
      if mounted {
        error := SearchErrorMessage;
        searchedSongs := [];
        loading := false;
      }
      StepPreservesInv(old(State()), Event.SuggestFailed);
    }

    /** `handleSongSelect(song)`, up to the point where `fetchLyrics` awaits the service. */
    method SelectSong(song: Song) returns (request: Request)
      requires Valid()
      modifies this
      ensures Valid()
      ensures State() == Step(old(State()), SongSelected(song)).next
      ensures request == Step(old(State()), SongSelected(song)).request
      ensures audioLog == old(audioLog) + Step(old(State()), SongSelected(song)).commands
    {
      request := NoRequest;
      if mounted {
        selectedSong := Some(song);
        loading := true;
        error := "";
        lyrics := "";
        request := LyricsLookup(song.artist.name, song.title);
      }
      StepPreservesInv(old(State()), SongSelected(song));
    }

    /** The lyrics lookup answers with `text`. */
    method LyricsSucceeded(text: string)
      requires Valid()
      modifies this
      ensures Valid()
      ensures State() == Step(old(State()), Event.LyricsSucceeded(text)).next
      ensures audioLog == old(audioLog) + Step(old(State()), Event.LyricsSucceeded(text)).commands
    {
      if mounted {
        lyrics := text;
        loading := false;
      }
      StepPreservesInv(old(State()), Event.LyricsSucceeded(text));
    }

    method LyricsFailed()
      requires Valid()
      modifies this
      ensures Valid()
      ensures State() == Step(old(State()), Event.LyricsFailed).next
      ensures audioLog == old(audioLog) + Step(old(State()), Event.LyricsFailed).commands
    {
      if mounted {
        error := LyricsErrorMessage;
        lyrics := "";
        loading := false;
      }
      StepPreservesInv(old(State()), Event.LyricsFailed);
    }

    /** `handleBackToResults` */
    method BackToResults()
      requires Valid()
      modifies this
      ensures Valid()
      ensures State() == Step(old(State()), Event.BackToResults).next
      ensures audioLog == old(audioLog) + Step(old(State()), Event.BackToResults).commands
    {
      if mounted {
        selectedSong := None;
        lyrics := "";
        error := "";
      }
      StepPreservesInv(old(State()), Event.BackToResults);
    }
  }
}
