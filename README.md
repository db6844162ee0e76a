# Mussekly home page: the search-and-playback session controller

This project models the `Home` page of the Mussekly music discovery UI. That page is the
component that:

- debounces the text the user types;
- sends the query to a song-suggestion service and shows the results;
- fetches and shows the lyrics of a selected song;
- drives one shared audio element that plays preview clips, with play/pause/switch behaviour.

The model has three layers:

- **`Session`** (`session.dfy`): the component's state as a value, `HomeState`. It holds
  every `useState` slot, the audio element (its source and whether it was last told to play),
  the one scheduled debounce timer (`pending`: the query that timer captured) and whether the
  component is still mounted. Every handler, effect callback and asynchronous completion is an
  `Event`, and `Step` is the transition for one event. A `Transition` also records what the step
  sent to the outside world: the commands given to the audio element (`Pause`, `Load(src)`,
  `Play`, in order) and the request issued to the lookup service (`SuggestLookup(query)` or
  `LyricsLookup(artist, title)`). `Run`, `Requests` and `Commands` fold whole sequences of
  events. `Inv` is the playback invariant:
  - a song is reported playing only while one is active;
  - the active song's preview is the element's loaded source;
  - while mounted, the element was last told to play whenever a song is reported playing;
  - the one scheduled timer, if any, carries the current query;
  - after unmounting, no timer is pending and the element is paused.
- **`HomeComponent.Home`** (`home.dfy`): the component as an object. It has one mutable field
  per state slot and one method per event. Each method updates the fields in place, in the
  handler's order. Each is proved to reach exactly `Step`'s state for its event, to give the
  audio element exactly `Step`'s commands (the ghost `audioLog`), and to keep `Inv`.
- **`Properties`** (`properties.dfy`) and **`View`** (`view.dfy`): lemmas. They cover what the
  handlers promise, event by event and over runs of events, and the choices the markup makes:
  `isThisSongPlaying`, the empty-results message and the lyrics panel.
  **`Whitespace`** (`whitespace.dfy`) models the blank test `!searchTerm.trim()`. `Trim`'s contract
  says it is empty exactly when the query is all whitespace (`AllWhitespace`), which is the
  form `Step` and the view test.

Network calls are events. A lookup is issued as a `Request`; its answer arrives later as a
`SuggestSucceeded(data?)`/`SuggestFailed` or `LyricsSucceeded(text)`/`LyricsFailed` event.
Timer expiry is the `TimerFired` event. A rejected `play()` promise is `PlayRejected`. The
element's signals are `ClipEnded` and `ClipErrored`. Unmounting is `Teardown`.

Five behaviours of the code are worth stating explicitly:

- **Blank queries.** The search effect schedules the 3000 ms timer on every change of
  `searchTerm`, blank or not (`src/pages/Home.jsx:65-67`). The blank test happens only when the
  timer fires (`src/pages/Home.jsx:42-45`). So a blank query empties the results when its timer
  fires, not at once, and the empty query's timer is already pending right after mounting.
  `QueryChanged` with the query already shown changes nothing: React discards an identical state
  update, so the effect does not re-run.
- **Songs without a preview.** Such a song is not treated as a playback error by the
  controller. The handler assigns its missing preview as the source and plays
  (`src/pages/Home.jsx:125`); the model records this as `Load(None)`.
  Any failure then arrives as a separate `ClipErrored` or `PlayRejected` event.
- **Stale lyrics.** The latest selection's lyrics are not guaranteed to be the ones shown.
  Answers are applied as they arrive (`StaleLyricsOverwrite`).
- **Status slot.** There is one `loading`/`error` slot shared by the search and lyrics flows,
  not one per flow (`SharedLoadingSlot`).
- **Rejected `play()`.** It sets the error message but leaves `isPlaying` as it was
  (`PlayRejectedSetsOnlyError`).

## Model

| member | source | states |
|---|---|---|
| `Whitespace.TrimStart` | src/pages/Home.jsx:42 | the result is a suffix of the query, everything removed is whitespace, and the result is empty or starts with a non-blank character |
| `Whitespace.TrimEnd` | src/pages/Home.jsx:42 | the result is a prefix of the query, everything removed is whitespace, and the result is empty or ends with a non-blank character |
| `Whitespace.Trim` | src/pages/Home.jsx:42 | the trimmed query is empty exactly when the query is all whitespace, and otherwise is non-blank at both ends |
| `Session.Step` | src/pages/Home.jsx:17-135 | one event: nothing remounts the component, only a play/pause press or unmounting reaches the audio element, and only a timer or a selection reaches the lookup service, all only while mounted |
| `Session.OnPlayPause` | src/pages/Home.jsx:103-135 | the pressed song ends up active, and it plays unless it was the active song and playing; no request is sent |
| `Session.OnTimerFired` | src/pages/Home.jsx:40-51 | the timer is consumed and sends no audio command; a request is sent exactly when a timer was pending with a non-blank query, and it is the suggestion lookup for that query |
| `Session.OnSongSelected` | src/pages/Home.jsx:72-95 | no contract of its own; `Properties.SelectionRequestsLyrics` states what selecting a song does |
| `Session.Inv` | src/pages/Home.jsx:7-135 | the playback invariant (a predicate, no contract of its own); `Properties.InitialInv`, `Properties.StepPreservesInv` and `Properties.ReachableInv` establish it |
| `Properties.InitialInv` | src/pages/Home.jsx:7-15 | the freshly mounted state (no song active, nothing playing, empty source) satisfies the playback invariant |
| `Properties.StepPreservesInv` | src/pages/Home.jsx:17-135 | every event keeps the playback invariant: at most one active song, its preview is the loaded source, it is reported playing only while a song is active, and, while mounted, only when the element was last told to play; a scheduled timer carries the current query |
| `Properties.RunPreservesInv` | src/pages/Home.jsx:17-135 | the invariant holds after any sequence of events from a state that satisfies it |
| `Properties.ReachableInv` | src/pages/Home.jsx:7-135 | every state reachable from mounting satisfies the playback invariant |
| `Properties.PauseActiveSong` | src/pages/Home.jsx:107-110 | pressing the active, playing song sends one pause, sets `isPlaying` false, and keeps the active song, the source and everything else |
| `Properties.ResumeActiveSong` | src/pages/Home.jsx:111-117 | pressing the active, paused song sends one play without reloading, sets `isPlaying` true, and keeps the active song and the source |
| `Properties.SwitchSong` | src/pages/Home.jsx:118-134 | pressing another song (or any song when none is active) sends pause (only if something was playing), then load of the song's preview (even an absent one), then play; the element is never told to play between the old clip and the new one; afterwards the song is active and playing and its preview is the source |
| `Properties.PlayPauseTwice` | src/pages/Home.jsx:103-135 | two presses on a song that is not active leave it the active song, paused, with its preview loaded |
| `Properties.ClipEndedKeepsSong` | src/pages/Home.jsx:21-23 | "ended" sets `isPlaying` false and keeps the active song; nothing else changes |
| `Properties.ClipErroredReports` | src/pages/Home.jsx:25-28 | "error" sets `isPlaying` false and the message "Error playing audio. Please try another song."; the active song stays |
| `Properties.PlayRejectedSetsOnlyError` | src/pages/Home.jsx:112-116 | a rejected `play()` sets the audio error message and nothing else; `isPlaying` stays as it was |
| `Properties.TeardownPauses` | src/pages/Home.jsx:33-37 | unmounting sends one pause, leaves the element paused and cancels the pending search timer |
| `Properties.NothingAfterTeardown` | src/pages/Home.jsx:33-37 | after unmounting, no sequence of events changes the state, reaches the audio element or issues a request |
| `Properties.BlankQueryIssuesNoLookup` | src/pages/Home.jsx:42-45 | when the timer of an all-whitespace query fires, the results are emptied and no lookup is issued |
| `Properties.QueryTimerLooksUp` | src/pages/Home.jsx:47-51 | when the timer of a non-blank query fires, exactly that query is sent to the suggestion service and `loading` turns on |
| `Properties.NoTimerNoLookup` | src/pages/Home.jsx:65-69 | with no timer scheduled, a timer event changes nothing and issues nothing |
| `Properties.TypingKeepsLatest` | src/pages/Home.jsx:64-70 | keystrokes issue no request and change only the query and the timer; the timer holds the last query typed unless no keystroke changed the query |
| `Properties.RapidTypingOneLookup` | src/pages/Home.jsx:40-70 | a burst of keystrokes in which some keystroke changes the query and which ends in a non-blank query, then the timer, issues exactly one lookup, for the final query, even if a second timer event follows |
| `Properties.RapidTypingToBlank` | src/pages/Home.jsx:40-70 | a burst in which some keystroke changes the query and which ends in a blank query, then the timer, issues no lookup and leaves the results empty |
| `Properties.SuggestSuccessReplaces` | src/pages/Home.jsx:47-61 | a successful lookup replaces the results wholesale with `data`, or with no songs when `data` is missing, clears the error and turns `loading` off; nothing else changes and nothing is sent |
| `Properties.SuggestFailureClears` | src/pages/Home.jsx:55-61 | a failed lookup empties the results, sets "Failed to fetch songs. Please try again." and turns `loading` off; nothing else changes |
| `Properties.SelectionRequestsLyrics` | src/pages/Home.jsx:72-95 | selecting a song makes it the selected song, asks for exactly its artist name and title, turns `loading` on, clears error and lyrics, and leaves playback alone; nothing else changes |
| `Properties.LyricsStoredVerbatim` | src/pages/Home.jsx:82-89 | a lyrics answer is stored exactly as received and `loading` turns off; nothing else changes |
| `Properties.LyricsFailureReports` | src/pages/Home.jsx:83-89 | a failed lyrics lookup empties the lyrics, sets "Lyrics not found for this song." and turns `loading` off |
| `Properties.BackToResultsKeepsPlayback` | src/pages/Home.jsx:97-101 | going back clears the selection, lyrics and error, and keeps the active song, `isPlaying`, the audio element and the results; nothing else changes and nothing is sent |
| `Properties.LyricsRound` | src/pages/Home.jsx:72-95 | a selection and its lyrics answer issue one lookup for the song's artist and title and leave it selected with those lyrics, no error, not loading |
| `Properties.LyricsFailRound` | src/pages/Home.jsx:72-95 | a selection whose lookup fails issues one lookup for the song's artist and title and leaves it selected with empty lyrics, the lyrics error, not loading |
| `Properties.RetryAfterLyricsFailure` | src/pages/Home.jsx:72-95 | after a failed lyrics lookup (empty lyrics, error shown), selecting another song whose lyrics arrive clears the error and stores those lyrics; the two lookups ask for each song's artist and title |
| `Properties.StaleLyricsOverwrite` | src/pages/Home.jsx:72-95 | selecting A then B, with B's lyrics arriving before A's, leaves B selected but A's lyrics stored |
| `Properties.SharedLoadingSlot` | src/pages/Home.jsx:47-90 | a lyrics answer turns `loading` off while the search lookup started before it has not answered |
| `View.IsThisSongPlaying` | src/pages/Home.jsx:160-163 | a predicate with no contract of its own; `View.HighlightIsUnique` and `View.PlayPauseTogglesHighlight` specify it |
| `View.Results` | src/pages/Home.jsx:217-221 | the grid shows exactly when there are results, and it shows exactly those results; `View.SearchPromptIffBlank` says which message replaces it |
| `View.ResultsMessage` | src/pages/Home.jsx:217-221 | a message shows exactly when the grid does not: "No songs found" for a non-blank query without results, "Search for a song to get started" for a blank one |
| `View.LyricsPanel` | src/pages/Home.jsx:267-277 | loading shows exactly while `loading` is on; the error panel shows exactly when not loading and an error is set, and it shows that message; lyrics show exactly when not loading, no error is set and the stored lyrics are non-empty, and they are those lyrics |
| `View.HighlightIsUnique` | src/pages/Home.jsx:160-163 | any two cards highlighted as playing share the active song's id |
| `View.PlayPauseTogglesHighlight` | src/pages/Home.jsx:160-163 | after a press on a song, its card is highlighted exactly when it was not before, and no card of another id becomes highlighted |
| `View.SearchPromptIffBlank` | src/pages/Home.jsx:217-221 | with no results, the prompt body and its text "Search for a song to get started" show exactly when the query is all whitespace, and the "No songs found" body and text exactly when it is not |
| `View.LyricsShownVerbatim` | src/pages/Home.jsx:267-277 | non-empty lyrics that arrive while no error is set are what the lyrics panel shows |
| `View.SearchRound` | src/pages/Home.jsx:40-61 | a new non-blank query, its timer and a successful answer issue one lookup for that query and leave exactly that answer as the results, no error, not loading, no timer pending |
| `View.SearchThenLyrics` | src/pages/Home.jsx:40-95 | search, then select the first result, then its lyrics arrive: the query, then that result's artist and title, are the only requests, and the panel shows the lyrics as received |
| `HomeComponent.Home.constructor` | src/pages/Home.jsx:7-15 | every slot starts at its initial value, the empty query's timer is pending, and the invariant holds |
| `HomeComponent.Home.PlayPause` | src/pages/Home.jsx:103-135 | updates the fields and the audio element as `handlePlayPause` does, reaching `Step`'s state and commands and keeping the invariant |
| `HomeComponent.Home.PlayRejected` | src/pages/Home.jsx:129-132 | sets only the audio error message |
| `HomeComponent.Home.ClipEnded` | src/pages/Home.jsx:21-23 | sets `isPlaying` false |
| `HomeComponent.Home.ClipErrored` | src/pages/Home.jsx:25-28 | sets the audio error message and `isPlaying` false |
| `HomeComponent.Home.Teardown` | src/pages/Home.jsx:33-37 | cancels the timer, pauses the element and stops all further updates |
| `HomeComponent.Home.QueryChanged` | src/pages/Home.jsx:64-70 | a changed query replaces the scheduled timer with one for the new query |
| `HomeComponent.Home.TimerFired` | src/pages/Home.jsx:41-51 | clears the timer; for a blank query empties the results and returns no request, otherwise turns `loading` on and returns the suggestion request for the captured query |
| `HomeComponent.Home.SuggestSucceeded` | src/pages/Home.jsx:53-60 | stores `data` (or no songs), clears the error, turns `loading` off |
| `HomeComponent.Home.SuggestFailed` | src/pages/Home.jsx:55-60 | stores the search error, empties the results, turns `loading` off |
| `HomeComponent.Home.SelectSong` | src/pages/Home.jsx:92-95 | selects the song, resets loading, error and lyrics, and returns the lyrics request for its artist and title |
| `HomeComponent.Home.LyricsSucceeded` | src/pages/Home.jsx:82-88 | stores the lyrics as received and turns `loading` off |
| `HomeComponent.Home.LyricsFailed` | src/pages/Home.jsx:83-88 | stores the lyrics error, empties the lyrics, turns `loading` off |
| `HomeComponent.Home.BackToResults` | src/pages/Home.jsx:97-101 | clears selection, lyrics and error |

## Left out

- The HTTP calls and their URLs (`src/pages/Home.jsx:49-51`, `src/pages/Home.jsx:78-80`) are network I/O. They become `Request` values, and their answers become events. Logging through `console.log`/`console.error` is left out too.
- Any event may arrive in any state. The model does not pair an answer with the request it belongs to; nor does the code, which applies answers whenever they arrive.
- Assigning `audio.src = undefined` for a song without a preview really stores the string "undefined", which the browser resolves to a URL relative to the page. The model keeps the source absent (`Load(None)`, `Audio(None, _)`), because what the browser then fetches is outside the controller.
- The browser's `Audio` object is reduced to its source and whether it was last told to play. Loading a new source clears that flag, as the HTML media load algorithm pauses the element. The element's own decoding, buffering and end-of-clip pausing are not modelled: after "ended" the record still says it was told to play. The `play()` promise is not modelled beyond its rejection event.
- Real time is not modelled. The 3000 ms delay of `setTimeout` and the cancellation by `clearTimeout` (`src/pages/Home.jsx:65-69`) become the single `pending` slot and the `TimerFired` event.
- React is not modelled: effect scheduling, re-rendering, the JSX/CSS markup beyond the three choices in `View`, and the loading and error banners (`src/pages/Home.jsx:142-152`), which only display `loading` and `error`.
- `Whitespace.IsWhitespace` is a fixed set (space, tab, line feed, carriage return, vertical tab, form feed, no-break space, byte-order mark). It stands in for JavaScript's full Unicode whitespace and line-terminator classes used by `trim()`.
- The model does not cover two response shapes:
  - a lyrics response without a `lyrics` field (`LyricsSucceeded` always carries a string);
  - a `data` field that is present but not an array. The `Array.isArray` test at `src/pages/Home.jsx:158` is therefore always true here.
- `src/components/Navbar.jsx` and `src/App.jsx` are not part of this model: they are the router shell and static links.
- `src/components/Search.jsx` is not part of this model either. That input takes no props, so as written it never changes `searchTerm`. `QueryChanged` is an abstract event.
