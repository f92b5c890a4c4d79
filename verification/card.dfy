/** The greeting card's controller state and the page handlers of `script.js`,
    each a pure transition over one immutable record. */
module Card {
  import opened Wrappers
  import Navigation
  import Audio

  /** A `setTimeout` callback that has been scheduled and not yet run. Nothing
      in the script ever cancels one. */
  datatype Timer =
    | AutoAdvance      // the envelope's `nextPage()` after 1300 ms
    | Unflip(card: int) // a flip card's `remove('flipped')` after 2200 ms

  /** An `.art-card` of the artwork list with the number in its `data-track`. */
  datatype ArtCard = ArtCard(id: int, track: int)

  /** Everything the script changes while the card is open.
      - `nav`: the sections' `hidden` classes and `current`
      - `envelopeOpen`: the `open` class of the envelope
      - `selectedArt`: the `selectedArtwork` variable (`None` is `null`)
      - `selectedCards`: ids of the art cards carrying `selected`
      - `player`: the audio elements and the `playing` track indicators
      - `flipped`: ids of the flip cards carrying `flipped`
      - `lastTap`: the timestamp shared by every double-tap listener
      - `pending`: scheduled timers, oldest first */
  datatype State = State(
    nav: Navigation.Nav,
    envelopeOpen: bool,
    selectedArt: Option<int>,
    selectedCards: set<int>,
    player: Audio.Player,
    flipped: set<int>,
    lastTap: int,
    pending: seq<Timer>)

  ghost predicate Valid(s: State) {
    && s.nav.Valid()
    && Audio.Exclusive(s.player)
    && |s.selectedCards| <= 1
  }

  /** Page load: `markup` holds the sections' initial `hidden` classes and
      `audioIds` the indices that have an `audio-N` element; the script's
      first act is `showIndex(0)`. */
  function Init(markup: seq<bool>, audioIds: set<int>): (s: State)
    requires |markup| >= 1
    ensures Valid(s)
    ensures s.nav.current == 0 && s.nav.Total() == |markup|
    ensures s.player.audios.Keys == audioIds && s.player.playing == {}
    ensures forall t :: t in s.player.audios ==> s.player.audios[t] == Audio.Silent
    ensures !s.envelopeOpen && s.selectedArt == None && s.selectedCards == {} && s.flipped == {}
    ensures s.lastTap == 0 && s.pending == []
  {
    State(Navigation.ShowIndex(Navigation.Nav(markup, 0), 0), false, None, {},
          Audio.Player(map t | t in audioIds :: Audio.Silent, {}), {}, 0, [])
  }

  /** `resetAll()`: back to the first page with the envelope closed, no art
      card selected, all audio stopped and rewound, and no card flipped.
      It leaves `selectedArtwork`, the shared `lastTap` and every scheduled
      timer as they were. */
  function ResetAll(s: State): (r: State)
    requires |s.nav.hidden| >= 1
    ensures Valid(r)
    ensures r.nav.current == 0 && r.nav.Total() == s.nav.Total()
    ensures !r.envelopeOpen
    ensures r.selectedCards == {}
    ensures r.player.playing == {}
    ensures r.player.audios.Keys == s.player.audios.Keys
    ensures forall t :: t in r.player.audios ==> r.player.audios[t] == Audio.Silent
    ensures r.flipped == {}
    ensures r.selectedArt == s.selectedArt && r.lastTap == s.lastTap && r.pending == s.pending
  {
    s.(nav := Navigation.ShowIndex(s.nav, 0),
       envelopeOpen := false,
       player := Audio.StopAll(s.player),
       selectedCards := {},
       flipped := {})
  }

  /** Resetting twice is resetting once. */
  lemma ResetIdempotent(s: State)
    requires |s.nav.hidden| >= 1
    ensures ResetAll(ResetAll(s)) == ResetAll(s)
  {
  }

  /** What a reset leaves depends only on the page count, the audio elements
      and the three things it does not touch. */
  lemma ResetForgets(a: State, b: State)
    requires |a.nav.hidden| >= 1 && |a.nav.hidden| == |b.nav.hidden|
    requires a.player.audios.Keys == b.player.audios.Keys
    requires a.selectedArt == b.selectedArt && a.lastTap == b.lastTap && a.pending == b.pending
    ensures ResetAll(a) == ResetAll(b)
  {
  }

  /** A reset brings back the state of page load exactly when the three
      things it leaves alone are as they were then: no artwork chosen, no
      tap recorded, no timer scheduled. */
  lemma ResetRestoresInit(s: State, markup: seq<bool>)
    requires |markup| >= 1 && |s.nav.hidden| == |markup|
    ensures ResetAll(s) == Init(markup, s.player.audios.Keys)
      <==> s.selectedArt == None && s.lastTap == 0 && s.pending == []
  {
  }

  /** `nextPage()` on the whole state: only the navigator changes. */
  function NextPage(s: State): (r: State)
    requires s.nav.Valid()
    ensures r.nav.Valid() && r.nav.Total() == s.nav.Total()
    ensures s.nav.current < s.nav.Total() - 1 ==> r.nav.current == s.nav.current + 1
    ensures s.nav.current == s.nav.Total() - 1 ==> r == s
    ensures r.(nav := s.nav) == s
  {
    s.(nav := Navigation.NextPage(s.nav))
  }

  /** `openEnvelope()`: add `open` (already open stays open) and schedule one
      more automatic `nextPage`, on every call. */
  function OpenEnvelope(s: State): (r: State)
    ensures r.envelopeOpen
    ensures r.pending == s.pending + [AutoAdvance]
    ensures r.(envelopeOpen := s.envelopeOpen, pending := s.pending) == s
  {
    s.(envelopeOpen := true, pending := s.pending + [AutoAdvance])
  }

  /** A click in the artwork list. `card` is the enclosing `.art-card`, `None`
      for a click outside every card, which changes nothing. */
  function SelectArt(s: State, card: Option<ArtCard>): (r: State)
    ensures card.None? ==> r == s
    ensures card.Some? ==> r.selectedCards == {card.value.id} && r.selectedArt == Some(card.value.track)
    ensures r.(selectedCards := s.selectedCards, selectedArt := s.selectedArt) == s
  {
    match card
    case None => s
    case Some(c) => s.(selectedCards := {c.id}, selectedArt := Some(c.track))
  }

  /** Clicking the same art card again changes nothing more. */
  lemma SelectArtIdempotent(s: State, card: Option<ArtCard>)
    ensures SelectArt(SelectArt(s, card), card) == SelectArt(s, card)
  {
  }

  /** A flip card's click handler (and its double-tap handler, which does the
      same): toggle `flipped` on that card and schedule its un-flip. */
  function ToggleFlip(s: State, card: int): (r: State)
    ensures card in r.flipped <==> card !in s.flipped
    ensures forall c :: c != card ==> (c in r.flipped <==> c in s.flipped)
    ensures r.pending == s.pending + [Unflip(card)]
    ensures r.(flipped := s.flipped, pending := s.pending) == s
  {
    s.(flipped := if card in s.flipped then s.flipped - {card} else s.flipped + {card},
       pending := s.pending + [Unflip(card)])
  }

  /** Toggling the same card twice restores the flipped set (two timers stay scheduled). */
  lemma ToggleTwice(s: State, card: int)
    ensures ToggleFlip(ToggleFlip(s, card), card).flipped == s.flipped
    ensures ToggleFlip(ToggleFlip(s, card), card).pending == s.pending + [Unflip(card), Unflip(card)]
  {
  }

  /** The sequence without its element at `k`. */
  function Without<T>(xs: seq<T>, k: int): (r: seq<T>)
    requires 0 <= k < |xs|
    ensures |r| == |xs| - 1
    ensures forall i :: 0 <= i < k ==> r[i] == xs[i]
    ensures forall i :: k <= i < |r| ==> r[i] == xs[i + 1]
  {
    xs[..k] + xs[k + 1..]
  }

  /** Scheduled timer `k` runs and is gone. The envelope timer calls
      `nextPage()` whatever the page is by then; an un-flip timer removes
      `flipped` from its card whether or not it was flipped again meanwhile. */
  function Fire(s: State, k: int): (r: State)
    requires s.nav.Valid()
    requires 0 <= k < |s.pending|
    ensures r.nav.Valid()
    ensures r.pending == Without(s.pending, k)
    ensures s.pending[k] == AutoAdvance ==> r == NextPage(s).(pending := r.pending)
    ensures s.pending[k].Unflip? ==>
      r == s.(flipped := s.flipped - {s.pending[k].card}, pending := r.pending)
  {
    var rest := Without(s.pending, k);
    match s.pending[k]
    case AutoAdvance => NextPage(s).(pending := rest)
    case Unflip(c) => s.(flipped := s.flipped - {c}, pending := rest)
  }

  /** What a page handler does once it runs. */
  datatype Action =
    | GoNext               // nextPage()
    | StopAndGoNext        // stopAllAudio(); nextPage()
    | OpenEnv              // openEnvelope()
    | ToggleCard(card: int) // flip-card toggle with its un-flip timer

  /** Index of section `page-2`, which holds the envelope. */
  const EnvelopePage: int := 1
  /** Index of section `page-5`, the songs page. */
  const PlayerPage: int := 4
  /** Index of section `page-6`, the flip cards and the replay button. */
  const FlipPage: int := 5

  /** The handler of the individual `bindDoubleTap` call on a section:
      `page-1` to `page-4` go on, `page-5` first stops the audio. */
  function PageBinding(page: int): (b: Option<Action>)
    ensures b.Some? <==> 0 <= page <= PlayerPage
    ensures b == Some(GoNext) <==> 0 <= page < PlayerPage
    ensures b == Some(StopAndGoNext) <==> page == PlayerPage
  {
    if 0 <= page < PlayerPage then Some(GoNext)
    else if page == PlayerPage then Some(StopAndGoNext)
    else None
  }

  /** The per-section policy the closing loop installs, looked up when the
      gesture arrives: none for `page-6`; on the envelope page, open the
      envelope if it is closed and go on otherwise; elsewhere go on. */
  function SectionPolicy(page: int, envelopeOpen: bool): Option<Action> {
    if page == FlipPage then None
    else if page == EnvelopePage && !envelopeOpen then Some(OpenEnv)
    else Some(GoNext)
  }

  function Perform(s: State, a: Action): (r: State)
    requires Valid(s)
    ensures Valid(r)
    ensures r.nav.Total() == s.nav.Total() && r.player.audios.Keys == s.player.audios.Keys
    ensures r.lastTap == s.lastTap
  {
    match a
    case GoNext => NextPage(s)
    case StopAndGoNext => NextPage(s.(player := Audio.StopAll(s.player)))
    case OpenEnv => OpenEnvelope(s)
    case ToggleCard(c) => ToggleFlip(s, c)
  }
}
