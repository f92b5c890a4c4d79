# Princess Card page flow, in Dafny

`script.js` drives a six-page digital greeting card:
- a cover with an "open" button;
- an envelope that opens and then moves on by itself;
- a letter;
- an artwork picker;
- a songs page with play buttons;
- a final page with flip cards and a Replay button.

Under the DOM calls the script is a small sequential state machine. This
project lifts it into one immutable record, `Card.State`, and models every
handler as a pure transition over that record. The modules are:

- `Navigation`: the sections' `hidden` classes and the current page. This covers `showIndex`, which clamps, and `nextPage`, which saturates and never wraps.
- `Gesture`: the double-tap classifier of `bindDoubleTap`. It has one `lastTap` timestamp, shared by every listener.
- `Audio`: the audio elements, the `playing` track indicators, `stopAllAudio`, the play-button toggle, the `onended` handler and the pause on `visibilitychange`.
- `Card`: the state record, page load, `resetAll`, `openEnvelope`, artwork selection, flip-card toggling, timers, and the per-section double-tap policy.
- `Controller`: which listeners an input reaches and in what order. It also holds the key mapping and the step function over whole sessions.
- `Behaviour`: properties of the wiring as a whole.

Timers are an explicit list of scheduled callbacks, `State.pending`. The
`TimerFires(k)` input runs one of them. Nothing removes a timer except its
own firing, just as nothing in the script calls `clearTimeout`.

The markup is not part of this model. Section k is taken to be `page-(k+1)`.
The envelope is taken to sit in `page-2`, and the flip cards in `page-6`.

## Behaviour of the code worth knowing

The model follows the code wherever the code differs from the card's evident design:

- **Single taps advance.** Every `bindDoubleTap` listener shares one `lastTap`. Sections `page-1` to `page-5` each carry two such listeners: their own binding and the one from the closing loop. So on one touch the second listener sees the timestamp the first just recorded, and fires. On `page-1`, `page-3`, `page-4` and `page-5` a single touch therefore moves on one page (`Behaviour.SingleTapAdvances`, `Behaviour.SongsTapKeepsMusic`), and on `page-1`, `page-3` and `page-4` a double click moves on two (`Behaviour.DoubleClickAdvancesTwice`). On `page-2` with the envelope closed, a slow single touch reaches the loop's listener, which opens the envelope instead of moving on; the page changes only when the envelope's timer fires (`Behaviour.EnvelopePageTapOpens`).
- **Music can keep playing after a tap.** On the songs page, a slow single touch goes on through the loop's listener, which does not stop the audio (`Behaviour.SongsTapKeepsMusic`).
- **Touching the envelope moves on twice.** The touch opens the envelope and moves on at once. Its timer later moves on again, past the letter (`Behaviour.EnvelopeTapSkipsLetter`).
- **Replay does not cancel timers.** A pending envelope timer still moves the card off the first page after Replay (`Behaviour.ReplayKeepsAutoAdvance`). A flip card's first un-flip timer turns it back even after later clicks (`Behaviour.EarlyUnflip`).
- **`resetAll` keeps three things.** It leaves `selectedArtwork`, `lastTap` and the timers alone. So it restores the page-load state exactly when those three are at their initial values (`Card.ResetRestoresInit`).

## Model

| member | source | states |
|---|---|---|
| Navigation.Clamp | script.js:11-12 | the index lands in [0, total-1]; it is unchanged inside that range, 0 below it and total-1 above it |
| Navigation.ShowIndex | script.js:10-17 | `current` becomes the clamped index, exactly that section is un-hidden and all others are hidden, and the page count is kept; needs at least one section |
| Navigation.NextPage | script.js:23-25 | before the last page it moves on exactly one; on the last page it changes nothing |
| Navigation.AdvanceSaturates | script.js:23-25 | k presses of next reach min(current + k, total - 1); it never wraps |
| Navigation.LastPageIsFixed | script.js:24 | from the last page any number of presses of next leaves the navigator unchanged |
| Navigation.SixPages | script.js:23-25 | on six pages, five presses from the first page reach index 5 and a sixth stays there |
| Gesture.Classify | script.js:44-53 | after a firing tap the shared timestamp is 0; after a non-firing tap it is the tap's time |
| Gesture.FiresIffWithinDelay | script.js:42-47 | a tap fires exactly when it comes at most 300 ms after the recorded one |
| Gesture.NoChainAfterFire | script.js:47-49 | right after a firing tap, the next tap with a clock above 300 does not fire |
| Gesture.SecondTapFiresIffQuick | script.js:47-52 | after a non-firing tap, the next tap fires if and only if it follows within 300 ms |
| Gesture.FiringsAlternate | script.js:43-53 | the listeners reached by one tap fire alternately, the first only when the tap is quick, because they share one timestamp |
| Gesture.TapAfterLast | script.js:43-53 | after a tap passes through n listeners, the shared timestamp is 0 if the last listener fired and the tap's time otherwise |
| Audio.AtMostOneAudible | script.js:174-206 | under the exclusivity invariant, no two audio elements play at once |
| Audio.StopAll | script.js:174-181 | every audio ends up paused, rewound and without its `playing` class, with no track indicator lit |
| Audio.PressPlay | script.js:184-206 | a missing track or audio changes nothing; a playing track pauses and only its indicator clears; a paused track silences all others and only its indicator is lit; exclusivity is kept |
| Audio.Ended | script.js:218-222 | only a playing audio ends; it pauses and only its own track indicator clears; exclusivity is kept |
| Audio.PauseAll | script.js:300-302 | hiding the page pauses every audio and leaves positions, classes and indicators alone |
| Audio.SwitchTracks | script.js:191-206 | playing track 1 and then track 3 leaves only track 3's indicator lit and track 1 silent |
| Audio.PlayThenPause | script.js:191-198 | pressing play twice on a track pauses it and leaves no indicator lit |
| Card.Init | script.js:5-59 | page load is on the first page, with the envelope closed and nothing selected, playing, flipped, tapped or scheduled |
| Card.ResetAll | script.js:27-39 | a reset lands on the first page with the envelope closed, no card selected, no indicator lit, every audio paused at 0 and no card flipped; `selectedArtwork`, `lastTap` and the timers are kept |
| Card.ResetIdempotent | script.js:27-39 | resetting twice gives the same state as resetting once |
| Card.ResetForgets | script.js:27-39 | a reset's result depends only on the page count, the audio elements, `selectedArtwork`, `lastTap` and the timers |
| Card.ResetRestoresInit | script.js:27-39 | a reset yields the page-load state if and only if no artwork was chosen, no tap is recorded and no timer is pending |
| Card.NextPage | script.js:23-25 | on the whole state, next moves only the navigator, by one page unless already on the last |
| Card.OpenEnvelope | script.js:132-140 | the envelope is open and one more automatic advance is scheduled on every call; nothing else changes |
| Card.SelectArt | script.js:158-165 | a click on a card leaves exactly that card selected and records its track number; a click outside every card changes nothing |
| Card.SelectArtIdempotent | script.js:158-165 | clicking the same card twice is clicking it once |
| Card.ToggleFlip | script.js:240-252 | only the clicked card's flipped state toggles, and its un-flip timer is appended |
| Card.ToggleTwice | script.js:242-246 | toggling a card twice restores the flipped set and leaves two un-flip timers scheduled |
| Card.Fire | script.js:136-251 | a fired timer leaves the list; the envelope timer advances from whatever page is current, and an un-flip timer (scheduled by the click or the double tap of a flip card) clears only its own card |
| Card.Perform | script.js:128-252 | every page action keeps the state invariant, the page count and the set of audio elements |
| Card.PageBinding | script.js:232-236 | `page-5`'s own binding stops every audio before going on; `page-1` to `page-4` only go on; no other section has a binding of its own |
| Controller.SectionHandlers | script.js:274-276 | `page-1` to `page-5` carry their own handler and then the loop's, `page-6` carries none, and later pages carry only the loop's |
| Controller.TouchListeners | script.js:274-276 | a touch on a section reaches its own binding, then the closing loop's, both through the classifier; `page-6` and missing sections have none |
| Controller.DoubleClickListeners | script.js:44-55 | a double click reaches the same bindings as a touch, in the same order, each calling its handler directly; the envelope's own touch listener has no double-click counterpart |
| Controller.EnvelopeListeners | script.js:144-147 | a touch on the envelope opens it unguarded, then reaches `page-2`'s own binding and the loop's; a double click there reaches only those two |
| Controller.FlipCardListeners | script.js:249-252 | a touch or double click on a flip card reaches only that card's own binding |
| Controller.Dispatch | script.js:44-54 | a direct listener just runs its handler; a guarded listener runs it and zeroes `lastTap` when the tap comes within 300 ms of the last one, and otherwise only records the tap's time |
| Controller.SectionHandlerEffect | script.js:274-285 | the closing loop's handler on `page-2` opens a closed envelope and goes on when it is open; on `page-6` it does nothing; on every other section it goes on |
| Controller.RunSelected | script.js:44-54 | running an event's handlers with some of them gated off keeps the invariant and the shared timestamp, and with every gate off changes nothing |
| Controller.RunSelectedIgnoresTap | script.js:43-54 | which handlers run does not depend on the shared timestamp, and their combined effect leaves it as it was |
| Controller.GuardedFollowsFirings | script.js:43-54 | a tap reaching guarded listeners runs handler i exactly when the classifier chain fires at position i, and ends with the chain's final `lastTap` |
| Controller.DispatchAll | script.js:43-53 | running an event's listeners in order keeps the invariant; with only guarded listeners the final `lastTap` is the classifier chain's |
| Controller.KeyDown | script.js:289-292 | ArrowRight and Enter go on, Escape resets, and every other key changes nothing |
| Controller.PressControl | script.js:62-267 | the continue buttons go on, the songs page's button first silences every audio, the envelope opens and Replay resets; each button changes only what its handler touches |
| Controller.Step | script.js:58-302 | every input keeps the state invariant, the page count and the set of audio elements |
| Controller.Session | script.js:58-302 | every sequence of inputs keeps the state invariant |
| Behaviour.SingleTapAdvances | script.js:69-276 | with a clock above 300, a single touch on `page-1`, `page-3` or `page-4` moves on exactly one page |
| Behaviour.SongsTapKeepsMusic | script.js:232-283 | a slow single touch on the songs page moves on without touching the audio, and clears the shared timestamp |
| Behaviour.SongsQuickTapStops | script.js:232-236 | a quick touch on the songs page stops all audio and moves on |
| Behaviour.EnvelopeTapSkipsLetter | script.js:136-147 | touching the closed envelope opens it and moves on at once; the scheduled advance later moves on a second time |
| Behaviour.LastPageTouchInert | script.js:275 | a touch on the last page's background changes nothing, not even `lastTap` |
| Behaviour.FlipCardDoubleTap | script.js:249-252 | through the flip card's own `touchend` listener, a second touch within 300 ms toggles the card, the first only records the time, and a second touch later than that only records its own time; the `click` a real tap also produces is a separate input |
| Behaviour.EnvelopePageTapOpens | script.js:274-281 | on `page-2` with the envelope closed, a slow single touch opens the envelope and stays on the page; a quick one moves on and leaves its time recorded |
| Behaviour.DoubleClickAdvancesTwice | script.js:55 | a double click on `page-1`, `page-3` or `page-4` runs both handlers and moves on two pages |
| Behaviour.DoubleClickEnvelopePage | script.js:276-281 | a double click on `page-2` with the envelope closed moves on and still opens the envelope and schedules its advance |
| Behaviour.ReplayKeepsAutoAdvance | script.js:136-139 | opening the envelope and then replaying still ends on the second page once the timer fires |
| Behaviour.EarlyUnflip | script.js:244-246 | after three clicks a card is flipped, and the first click's timer still turns it back |
| Behaviour.SingleTrackAlways | script.js:174-206 | from page load, after any inputs, at most one track indicator is lit and at most one audio plays |

## Left out

- The particle canvas (script.js:72-126): floating-point motion, `Math.random` and `requestAnimationFrame`.
- Rendering details: `focus()` (script.js:19), the Replay button animation (script.js:259-263) and the `touchAction` styling (script.js:295-297).
- Button captions and the "Now Playing" text (script.js:196, 209-214, 220-221): text only, no state that any handler reads.
- The `currentAudio` variable (script.js:173, 216): it is written and never read.
- The `play()` promise (script.js:204) is reduced to a `started` flag on the input. When the platform blocks playback, the audio stays paused and the rejection is swallowed.
- The playback position is reduced to `rewound`: whether `currentTime` is known to be 0.
- Wall-clock timing: the delays of 1300 ms and 2200 ms are not modelled. Any scheduled timer may fire next, so the model allows firing orders that real delays would exclude.
- `Date.now()` is read once per touch, and every listener the touch reaches sees that value. The real script reads the clock once per listener, though all reads fall within one dispatch.
- The browser's own event synthesis is not generated by the model. The `click` after a `touchend` and the two clicks before a `dblclick` are separate inputs a driver can supply. The envelope's `preventDefault` only affects that synthesis.
- Missing markup: the `?.` and `if (!envelope)` guards and `parseInt` returning NaN are not modelled, because the markup is fixed. A missing `.track`, a missing audio element and a click outside every art card are modelled.
- Card.Fire: the timer index is a precondition. `Controller.Step` drops an input whose index names no scheduled timer.
- Card.Init: accepts any non-empty list of sections. With fewer than five sections the script aborts at load (script.js:147, 151, 169 or 232 registers on a missing element), so the loop at script.js:274 and the key listener never exist; only six-section markup is meaningful, as the rest of this model assumes.
- Markup assumptions behind `Card.Init`: the envelope starts closed, no art card starts selected, no flip card starts flipped, no `.track` starts with `playing`, and every audio starts paused at position 0 with no `autoplay` or native `controls`. The script sets only `lastTap`, `selectedArtwork` and the first page itself. `Behaviour.SingleTrackAlways` rests on these assumptions too.
