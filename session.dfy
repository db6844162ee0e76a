/**
 * The search-and-playback session controller of the `Home` page, as values.
 *
 * `HomeState` holds every state slot of the component (the `useState` hooks,
 * the audio element behind `audioRef`, the one pending debounce timer, and
 * whether the component is still mounted). Every handler, effect callback
 * and asynchronous completion is an `Event`; `Step` is the one transition
 * function. A `Transition` also records what the step sent to the outside
 * world: the commands given to the audio element, in order, and the request
 * (if any) sent to the lookup service (the suggestion or the lyrics endpoint).
 */
module Session {
  import opened Wrappers
  import opened Whitespace

  datatype Artist = Artist(name: string)

  /** One entry of the suggestion endpoint's `data` array. `preview` may be absent. */
  datatype Song = Song(id: int, title: string, artist: Artist, preview: Option<string>)

  /** The audio element: its loaded source and whether it was last told to play. */
  datatype Audio = Audio(src: Option<string>, playing: bool)

  datatype AudioCommand =
    | Pause
    | Load(url: Option<string>)   // `audio.src = url`
    | Play

  /** A request handed to the lookup service; its answer comes back later as an event. */
  datatype Request =
    | NoRequest
    | SuggestLookup(query: string)
    | LyricsLookup(artist: string, title: string)

  datatype HomeState = HomeState(
    searchTerm: string,
    searchedSongs: seq<Song>,
    selectedSong: Option<Song>,
    lyrics: string,
    loading: bool,
    error: string,
    currentlyPlaying: Option<Song>,
    isPlaying: bool,
    audio: Audio,
    pending: Option<string>,     // the query captured by the one scheduled debounce timer
    mounted: bool)

  datatype Event =
    | PlayPauseRequested(song: Song)
    | PlayRejected                          // a `play()` promise rejected
    | ClipEnded                             // the audio element's "ended" signal
    | ClipErrored                           // the audio element's "error" signal
    | Teardown                              // the component unmounts
    | QueryChanged(term: string)
    | TimerFired                            // the debounce timer elapses
    | SuggestSucceeded(data: Option<seq<Song>>)
    | SuggestFailed
    | SongSelected(song: Song)
    | LyricsSucceeded(text: string)
    | LyricsFailed
    | BackToResults

  datatype Transition = Transition(next: HomeState, commands: seq<AudioCommand>, request: Request)

  const AudioErrorMessage := "Error playing audio. Please try another song."
  const SearchErrorMessage := "Failed to fetch songs. Please try again."
  const LyricsErrorMessage := "Lyrics not found for this song."

  /** The state right after mounting: the search effect has scheduled a timer for the empty query. */
  function Initial(): HomeState {
    HomeState("", [], None, "", false, "", None, false, Audio(None, false), Some(""), true)
  }

  function Perform(a: Audio, c: AudioCommand): Audio {
    match c
    case Pause => a.(playing := false)
    case Load(url) => Audio(url, false)
    case Play => a.(playing := true)
  }

  /** The audio element after receiving the commands `cs` in order. */
  function PerformAll(a: Audio, cs: seq<AudioCommand>): Audio {
    if cs == [] then a else Perform(PerformAll(a, cs[..|cs| - 1]), cs[|cs| - 1])
  }

  /** A step that sends nothing to the outside world. */
  function Quiet(t: HomeState): Transition {
    Transition(t, [], NoRequest)
  }

  /** A step whose only outside effect is the audio commands `cs`, applied to `t`'s audio element. */
  function Commanding(t: HomeState, cs: seq<AudioCommand>): Transition {
    Transition(t.(audio := PerformAll(t.audio, cs)), cs, NoRequest)
  }

  /** `currentlyPlaying && currentlyPlaying.id === song.id` */
  predicate IsActive(s: HomeState, song: Song) {
    s.currentlyPlaying.Some? && s.currentlyPlaying.value.id == song.id
  }

  /** The pressed song ends up active; it plays unless it was the active song and playing. */
  function OnPlayPause(s: HomeState, song: Song): (t: Transition)
    ensures IsActive(t.next, song)
    ensures t.next.isPlaying <==> !(IsActive(s, song) && s.isPlaying)
    ensures t.request == NoRequest
  {
    if IsActive(s, song) then
      if s.isPlaying then Commanding(s.(isPlaying := false), [Pause])
      else Commanding(s.(isPlaying := true), [Play])
    else
      var cs := (if s.isPlaying then [Pause] else []) + [Load(song.preview), Play];
      Commanding(s.(currentlyPlaying := Some(song), isPlaying := true), cs)
  }

  /** The timer is consumed; it reaches the suggestion endpoint exactly when its query is not blank. */
  function OnTimerFired(s: HomeState): (t: Transition)
    ensures t.next.pending == None && t.commands == []
    ensures t.request != NoRequest <==> s.pending.Some? && !AllWhitespace(s.pending.value)
    ensures t.request != NoRequest ==> t.request == SuggestLookup(s.pending.value)
  {
    match s.pending
    case None => Quiet(s)
    case Some(q) =>
      if AllWhitespace(q) then Quiet(s.(pending := None, searchedSongs := []))
      else Transition(s.(pending := None, loading := true), [], SuggestLookup(q))
  }

  /** `handleSongSelect` together with the synchronous start of `fetchLyrics`. */
  function OnSongSelected(s: HomeState, song: Song): Transition {
    Transition(s.(selectedSong := Some(song), loading := true, error := "", lyrics := ""),
               [], LyricsLookup(song.artist.name, song.title))
  }

  /**
   * One event. Once the component has unmounted its listeners are detached,
   * its timer is cancelled and state updates are discarded, so nothing moves.
   */
  function Step(s: HomeState, e: Event): (t: Transition)
    ensures t.next.mounted ==> s.mounted
    ensures t.commands != [] ==> s.mounted && (e.PlayPauseRequested? || e.Teardown?)
    ensures t.request != NoRequest ==> s.mounted && (e.TimerFired? || e.SongSelected?)
  {
    if !s.mounted then Quiet(s) else
    match e
    case PlayPauseRequested(song) => OnPlayPause(s, song)
    case PlayRejected => Quiet(s.(error := AudioErrorMessage))
    case ClipEnded => Quiet(s.(isPlaying := false))
    case ClipErrored => Quiet(s.(error := AudioErrorMessage, isPlaying := false))
    case Teardown => Commanding(s.(mounted := false, pending := None), [Pause])
    case QueryChanged(term) =>
      if term == s.searchTerm then Quiet(s)
      else Quiet(s.(searchTerm := term, pending := Some(term)))
    case TimerFired => OnTimerFired(s)
    case SuggestSucceeded(data) => Quiet(s.(searchedSongs := data.GetOr([]), error := "", loading := false))
    case SuggestFailed => Quiet(s.(error := SearchErrorMessage, searchedSongs := [], loading := false))
    case SongSelected(song) => OnSongSelected(s, song)
    case LyricsSucceeded(text) => Quiet(s.(lyrics := text, loading := false))
    case LyricsFailed => Quiet(s.(error := LyricsErrorMessage, lyrics := "", loading := false))
    case BackToResults => Quiet(s.(selectedSong := None, lyrics := "", error := ""))
  }

  /** The state after the events `es`, in order. */
  function Run(s: HomeState, es: seq<Event>): HomeState
    decreases |es|
  {
    if es == [] then s else Run(Step(s, es[0]).next, es[1..])
  }

  /** The requests sent to the lookup service while the events `es` are handled, in order. */
  function Requests(s: HomeState, es: seq<Event>): seq<Request>
    decreases |es|
  {
    if es == [] then []
    else
      var t := Step(s, es[0]);
      (if t.request == NoRequest then [] else [t.request]) + Requests(t.next, es[1..])
  }

  /** The commands sent to the audio element while the events `es` are handled, in order. */
  function Commands(s: HomeState, es: seq<Event>): seq<AudioCommand>
    decreases |es|
  {
    if es == [] then [] else Step(s, es[0]).commands + Commands(Step(s, es[0]).next, es[1..])
  }

  /** One keystroke event per query in `qs`. */
  function Typing(qs: seq<string>): seq<Event>
    decreases |qs|
  {
    if qs == [] then [] else [QueryChanged(qs[0])] + Typing(qs[1..])
  }

  /**
   * The playback invariant: at most one song is active, a song is reported
   * playing only while one is active, the active song's preview is what the
   * audio element has loaded, and the element has been told to play whenever
   * the song is reported playing while mounted. The one scheduled timer, if
   * any, carries the current query. After teardown, no timer is pending and
   * the element is paused.
   */
  predicate Inv(s: HomeState) {
    && (s.isPlaying ==> s.currentlyPlaying.Some?)
    && (s.currentlyPlaying.Some? ==> s.audio.src == s.currentlyPlaying.value.preview)
    && (s.mounted && s.isPlaying ==> s.audio.playing)
    && (!s.mounted ==> s.pending == None && !s.audio.playing)
    && (s.pending == None || s.pending == Some(s.searchTerm))
  }
}
