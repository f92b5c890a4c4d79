/** The event listeners of `script.js` wired together: which listeners an
    input reaches, in what order, and the resulting transition of the
    card's state. */
module Controller {
  import opened Wrappers
  import Navigation
  import Audio
  import Gesture
  import opened Card

  /** A handler as registered: a fixed action, or the closing loop's handler
      for a section, whose action depends on the envelope when it runs. */
  datatype Handler = Fixed(action: Action) | SectionHandler(page: int)

  /** A listener: `guarded` ones are the `touchend` listeners of
      `bindDoubleTap`, which run their handler only through the classifier. */
  datatype Listener = Listener(guarded: bool, handler: Handler)

  /** Where a touch or double click lands. `Section(k)` is section k itself
      or any child without listeners of its own (buttons, art cards, tracks);
      the envelope sits in `page-2` and the flip cards in `page-6`. */
  datatype Target = Section(page: int) | Envelope | FlipCard(card: int)

  /** The buttons whose click handler is a single call. */
  datatype Control =
    | OpenHeart          // page 1 button
    | EnvelopeButton     // a click on the envelope
    | ContinueFromLetter // page 3 button
    | ContinueToSongs    // page 4 button
    | ContinueFromPlayer // page 5 button
    | Replay             // page 6 button

  datatype Event =
    | Press(control: Control)
    | ArtClick(card: Option<ArtCard>)
    | PlayClick(track: Option<int>, started: bool)
    | FlipClick(flipCard: int)
    | Touch(target: Target, now: int)
    | DoubleClick(target: Target)
    | Key(key: string)
    | AudioEnded(endedTrack: int)
    | VisibilityChange(hidden: bool)
    | TimerFires(index: int)

  /** The handlers bound on section `page`, in registration order: first the
      individual `bindDoubleTap` of `page-1` to `page-5`, then the one from
      the closing loop, which skips `page-6`. A section that does not exist
      has none. */
  function SectionHandlers(s: State, page: int): (hs: seq<Handler>)
    ensures !(0 <= page < s.nav.Total()) ==> hs == []
    ensures 0 <= page < s.nav.Total() && page <= PlayerPage ==>
      hs == [Fixed(PageBinding(page).value), SectionHandler(page)]
    ensures page == FlipPage ==> hs == []
    ensures PlayerPage < page < s.nav.Total() && page != FlipPage ==> hs == [SectionHandler(page)]
  {
    if 0 <= page < s.nav.Total() then
      (if PageBinding(page).Some? then [Fixed(PageBinding(page).value)] else [])
      + (if SectionPolicy(page, false).Some? then [SectionHandler(page)] else [])
    else []
  }

  function Guarded(hs: seq<Handler>): (ls: seq<Listener>)
    ensures |ls| == |hs|
    ensures forall i :: 0 <= i < |hs| ==> ls[i] == Listener(true, hs[i])
  {
    seq(|hs|, i requires 0 <= i < |hs| => Listener(true, hs[i]))
  }

  function Direct(hs: seq<Handler>): (ls: seq<Listener>)
    ensures |ls| == |hs|
    ensures forall i :: 0 <= i < |hs| ==> ls[i] == Listener(false, hs[i])
  {
    seq(|hs|, i requires 0 <= i < |hs| => Listener(false, hs[i]))
  }

  /** The `touchend` listeners a touch reaches: the target's own, then its
      section's. The envelope's own listener opens it without any classifier. */
  function TouchListeners(s: State, target: Target): (ls: seq<Listener>)
    ensures forall i :: 0 <= i < |ls| ==> ls[i].guarded || (i == 0 && target.Envelope?)
    ensures target.Section? && 0 <= target.page < PlayerPage && target.page < s.nav.Total() ==>
      ls == [Listener(true, Fixed(GoNext)), Listener(true, SectionHandler(target.page))]
    ensures target == Section(PlayerPage) && PlayerPage < s.nav.Total() ==>
      ls == [Listener(true, Fixed(StopAndGoNext)), Listener(true, SectionHandler(PlayerPage))]
    ensures target.Section? && PlayerPage < target.page < s.nav.Total() && target.page != FlipPage ==>
      ls == [Listener(true, SectionHandler(target.page))]
    ensures target == Section(FlipPage) || (target.Section? && !(0 <= target.page < s.nav.Total())) ==>
      ls == []
  {
    match target
    case Section(page) => Guarded(SectionHandlers(s, page))
    case Envelope => [Listener(false, Fixed(OpenEnv))] + Guarded(SectionHandlers(s, EnvelopePage))
    case FlipCard(c) => [Listener(true, Fixed(ToggleCard(c)))] + Guarded(SectionHandlers(s, FlipPage))
  }

  /** The `dblclick` listeners a double click reaches: every `bindDoubleTap`
      also calls its handler directly on `dblclick`. The envelope has none. */
  function DoubleClickListeners(s: State, target: Target): (ls: seq<Listener>)
    ensures forall i :: 0 <= i < |ls| ==> !ls[i].guarded
    ensures !target.Envelope? ==>
      && |ls| == |TouchListeners(s, target)|
      && forall i :: 0 <= i < |ls| ==> ls[i].handler == TouchListeners(s, target)[i].handler
    ensures target.Envelope? ==>
      && |ls| + 1 == |TouchListeners(s, target)|
      && forall i :: 0 <= i < |ls| ==> ls[i].handler == TouchListeners(s, target)[i + 1].handler
  {
    match target
    case Section(page) => Direct(SectionHandlers(s, page))
    case Envelope => Direct(SectionHandlers(s, EnvelopePage))
    case FlipCard(c) => [Listener(false, Fixed(ToggleCard(c)))] + Direct(SectionHandlers(s, FlipPage))
  }

  /** The envelope's own `touchend` listener opens it without asking the
      classifier; the touch then bubbles to `page-2`'s own binding and the
      closing loop's. A double click on the envelope reaches only the two
      bindings of `page-2`. */
  lemma EnvelopeListeners(s: State)
    requires EnvelopePage < s.nav.Total()
    ensures TouchListeners(s, Envelope)
      == [Listener(false, Fixed(OpenEnv)), Listener(true, Fixed(GoNext)), Listener(true, SectionHandler(EnvelopePage))]
    ensures DoubleClickListeners(s, Envelope)
      == [Listener(false, Fixed(GoNext)), Listener(false, SectionHandler(EnvelopePage))]
  {
  }

  /** A flip card carries one `bindDoubleTap` of its own, and `page-6`
      carries none, so a gesture on a flip card reaches that one listener. */
  lemma FlipCardListeners(s: State, c: int)
    ensures TouchListeners(s, FlipCard(c)) == [Listener(true, Fixed(ToggleCard(c)))]
    ensures DoubleClickListeners(s, FlipCard(c)) == [Listener(false, Fixed(ToggleCard(c)))]
  {
  }

  function Resolve(s: State, h: Handler): Option<Action> {
    match h
    case Fixed(a) => Some(a)
    case SectionHandler(page) => SectionPolicy(page, s.envelopeOpen)
  }

  function Run(s: State, h: Handler): (r: State)
    requires Valid(s)
    ensures Valid(r)
    ensures r.nav.Total() == s.nav.Total() && r.player.audios.Keys == s.player.audios.Keys
    ensures r.lastTap == s.lastTap
  {
    match Resolve(s, h)
    case None => s
    case Some(a) => Perform(s, a)
  }

  /** One listener handles the event: a direct one runs its handler; a
      guarded one asks the classifier, with the shared `lastTap`. */
  function Dispatch(s: State, l: Listener, now: int): (r: State)
    requires Valid(s)
    ensures Valid(r)
    ensures r.nav.Total() == s.nav.Total() && r.player.audios.Keys == s.player.audios.Keys
    ensures !l.guarded ==> r == Run(s, l.handler)
    ensures l.guarded && now - s.lastTap <= Gesture.DoubleTapDelay ==> r == Run(s, l.handler).(lastTap := 0)
    ensures l.guarded && now - s.lastTap > Gesture.DoubleTapDelay ==> r == s.(lastTap := now)
    ensures l.guarded ==> r.lastTap == Gesture.Classify(s.lastTap, now).lastTap
  {
    if !l.guarded then Run(s, l.handler)
    else
      var t := Gesture.Classify(s.lastTap, now);
      if t.fired then Run(s, l.handler).(lastTap := t.lastTap) else s.(lastTap := t.lastTap)
  }

  /** The closing loop's handler, as registered for section `page`: on
      `page-2` it goes on when the envelope is open and opens it otherwise;
      on `page-6` there is no such handler, so nothing happens; on every
      other section it goes on. */
  lemma SectionHandlerEffect(s: State, page: int)
    requires Valid(s)
    ensures page == EnvelopePage ==>
      Run(s, SectionHandler(page)) == (if s.envelopeOpen then NextPage(s) else OpenEnvelope(s))
    ensures page == FlipPage ==> Run(s, SectionHandler(page)) == s
    ensures page != EnvelopePage && page != FlipPage ==> Run(s, SectionHandler(page)) == NextPage(s)
  {
  }

  /** A handler's effect does not depend on the shared tap timestamp, and leaves it alone. */
  lemma RunIgnoresTap(s: State, h: Handler, a: int)
    requires Valid(s)
    ensures Run(s.(lastTap := a), h) == Run(s, h).(lastTap := a)
  {
  }

  /** Reference semantics of one event: the handlers `hs` run in order, the
      i-th one only when `fires[i]` holds. */
  function RunSelected(s: State, hs: seq<Handler>, fires: seq<bool>): (r: State)
    requires Valid(s) && |fires| == |hs|
    ensures Valid(r)
    ensures r.lastTap == s.lastTap
    ensures (forall i :: 0 <= i < |fires| ==> !fires[i]) ==> r == s
    decreases |hs|
  {
    if hs == [] then s
    else RunSelected(if fires[0] then Run(s, hs[0]) else s, hs[1..], fires[1..])
  }

  lemma {:induction false} RunSelectedIgnoresTap(s: State, hs: seq<Handler>, fires: seq<bool>, a: int)
    requires Valid(s) && |fires| == |hs|
    ensures RunSelected(s.(lastTap := a), hs, fires) == RunSelected(s, hs, fires).(lastTap := a)
    decreases |hs|
  {
    if hs != [] {
      var s1 := if fires[0] then Run(s, hs[0]) else s;
      RunIgnoresTap(s, hs[0], a);
      assert (if fires[0] then Run(s.(lastTap := a), hs[0]) else s.(lastTap := a)) == s1.(lastTap := a);
      RunSelectedIgnoresTap(s1, hs[1..], fires[1..], a);
    }
  }

  /** A touch that reaches the guarded listeners of `hs` runs handler i
      exactly when the classifier chain says listener i fires, and leaves the
      shared timestamp where the chain leaves it. */
  lemma {:induction false} GuardedFollowsFirings(s: State, hs: seq<Handler>, now: int)
    requires Valid(s)
    ensures DispatchAll(s, Guarded(hs), now)
      == RunSelected(s, hs, Gesture.Firings(s.lastTap, now, |hs|)).(lastTap := Gesture.TapAfter(s.lastTap, now, |hs|))
    decreases |hs|
  {
    var fs := Gesture.Firings(s.lastTap, now, |hs|);
    if hs == [] {
      assert Guarded(hs) == [];
    } else {
      var t := Gesture.Classify(s.lastTap, now);
      var ls := Guarded(hs);
      assert ls[1..] == Guarded(hs[1..]);
      var s1 := Dispatch(s, ls[0], now);
      assert DispatchAll(s, ls, now) == DispatchAll(s1, Guarded(hs[1..]), now);
      var x := if t.fired then Run(s, hs[0]) else s;
      assert s1 == x.(lastTap := t.lastTap);
      assert fs[0] == t.fired && fs[1..] == Gesture.Firings(t.lastTap, now, |hs| - 1);
      GuardedFollowsFirings(s1, hs[1..], now);
      RunSelectedIgnoresTap(x, hs[1..], fs[1..], t.lastTap);
    }
  }

  /** The listeners an event reaches, one after another in order. */
  function DispatchAll(s: State, ls: seq<Listener>, now: int): (r: State)
    requires Valid(s)
    ensures Valid(r)
    ensures r.nav.Total() == s.nav.Total() && r.player.audios.Keys == s.player.audios.Keys
    ensures (forall i :: 0 <= i < |ls| ==> !ls[i].guarded) ==> r.lastTap == s.lastTap
    ensures (forall i :: 0 <= i < |ls| ==> ls[i].guarded) ==> r.lastTap == Gesture.TapAfter(s.lastTap, now, |ls|)
    decreases |ls|
  {
    if ls == [] then s else DispatchAll(Dispatch(s, ls[0], now), ls[1..], now)
  }

  /** `keydown`: ArrowRight and Enter go on, Escape resets, any other key does nothing. */
  function KeyDown(s: State, key: string): (r: State)
    requires Valid(s)
    ensures Valid(r)
    ensures r.nav.Total() == s.nav.Total() && r.player.audios.Keys == s.player.audios.Keys
    ensures key == "ArrowRight" || key == "Enter" ==> r == NextPage(s)
    ensures key == "Escape" ==> r == ResetAll(s)
    ensures key != "ArrowRight" && key != "Enter" && key != "Escape" ==> r == s
  {
    var s1 := if key == "ArrowRight" || key == "Enter" then NextPage(s) else s;
    if key == "Escape" then ResetAll(s1) else s1
  }

  /** The buttons: each continue button goes on (the songs page's stops the
      audio first), the envelope opens, and Replay resets. */
  function PressControl(s: State, c: Control): (r: State)
    requires Valid(s)
    ensures Valid(r)
    ensures r.nav.Total() == s.nav.Total() && r.player.audios.Keys == s.player.audios.Keys
    ensures c in {OpenHeart, ContinueFromLetter, ContinueToSongs} ==> r == NextPage(s)
    ensures c == ContinueFromPlayer ==>
      && r.player.playing == {}
      && (forall t :: t in r.player.audios ==> r.player.audios[t] == Audio.Silent)
      && r.nav == NextPage(s).nav
      && r.(nav := s.nav, player := s.player) == s
    ensures c == EnvelopeButton ==> r == OpenEnvelope(s)
    ensures c == Replay ==> r == ResetAll(s)
  {
    match c
    case OpenHeart => NextPage(s)
    case EnvelopeButton => OpenEnvelope(s)
    case ContinueFromLetter => NextPage(s)
    case ContinueToSongs => NextPage(s)
    case ContinueFromPlayer => NextPage(s.(player := Audio.StopAll(s.player)))
    case Replay => ResetAll(s)
  }

  /** The card's response to one input. A timer index that names no
      scheduled timer is dropped. */
  function Step(s: State, e: Event): (r: State)
    requires Valid(s)
    ensures Valid(r)
    ensures r.nav.Total() == s.nav.Total()
    ensures r.player.audios.Keys == s.player.audios.Keys
  {
    match e
    case Press(c) => PressControl(s, c)
    case ArtClick(card) => SelectArt(s, card)
    case PlayClick(track, started) => s.(player := Audio.PressPlay(s.player, track, started))
    case FlipClick(c) => ToggleFlip(s, c)
    case Touch(target, now) => DispatchAll(s, TouchListeners(s, target), now)
    case DoubleClick(target) => DispatchAll(s, DoubleClickListeners(s, target), 0)
    case Key(key) => KeyDown(s, key)
    case AudioEnded(t) => s.(player := Audio.Ended(s.player, t))
    case VisibilityChange(hidden) => if hidden then s.(player := Audio.PauseAll(s.player)) else s
    case TimerFires(k) => if 0 <= k < |s.pending| then Fire(s, k) else s
  }

  /** A whole session: the inputs in the order they arrive. */
  function Session(s: State, es: seq<Event>): (r: State)
    requires Valid(s)
    ensures Valid(r)
    ensures r.nav.Total() == s.nav.Total()
    ensures r.player.audios.Keys == s.player.audios.Keys
    decreases |es|
  {
    if es == [] then s else Session(Step(s, es[0]), es[1..])
  }
}
