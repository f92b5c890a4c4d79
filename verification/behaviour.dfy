/** Consequences of the wiring that the individual handlers do not show on
    their own: the shared tap timestamp meeting two listeners per section,
    timers that outlive the state they were scheduled for, and the
    single-track guarantee over whole sessions. */
module Behaviour {
  import opened Wrappers
  import Navigation
  import Audio
  import Gesture
  import opened Card
  import opened Controller

  /** An event that reaches two listeners is handled by the first, then the second. */
  lemma DispatchTwo(s: State, l1: Listener, l2: Listener, now: int)
    requires Valid(s)
    ensures DispatchAll(s, [l1, l2], now) == Dispatch(Dispatch(s, l1, now), l2, now)
  {
    var ls := [l1, l2];
    var s1 := Dispatch(s, l1, now);
    var s2 := Dispatch(s1, l2, now);
    assert ls[1..] == [l2];
    assert DispatchAll(s, ls, now) == DispatchAll(s1, [l2], now);
    assert [l2][1..] == [];
    assert DispatchAll(s1, [l2], now) == DispatchAll(s2, [], now);
  }

  /** The same for one listener. */
  lemma DispatchOne(s: State, l: Listener, now: int)
    requires Valid(s)
    ensures DispatchAll(s, [l], now) == Dispatch(s, l, now)
  {
  }

  /** With a realistic clock, a single touch on `page-1`, `page-3` or `page-4` moves on by
      exactly one page: of the section's two listeners sharing `lastTap`,
      exactly one fires, whichever came before. */
  lemma {:induction false} SingleTapAdvances(s: State, now: int)
    requires Valid(s)
    requires s.nav.current in {0, 2, 3} && s.nav.current < s.nav.Total() - 1
    requires now > Gesture.DoubleTapDelay
    ensures Step(s, Touch(Section(s.nav.current), now)).nav.current == s.nav.current + 1
  {
    var p := s.nav.current;
    var l1, l2 := Listener(true, Fixed(GoNext)), Listener(true, SectionHandler(p));
    assert SectionHandlers(s, p) == [l1.handler, l2.handler];
    assert TouchListeners(s, Section(p)) == [l1, l2];
    DispatchTwo(s, l1, l2, now);
    var s1 := Dispatch(s, l1, now);
    if now - s.lastTap <= Gesture.DoubleTapDelay {
      assert s1 == NextPage(s).(lastTap := 0);
      assert Dispatch(s1, l2, now) == s1.(lastTap := now);
    } else {
      assert s1 == s.(lastTap := now);
      assert Run(s1, l2.handler) == NextPage(s1);
    }
  }

  /** On the envelope page with the envelope closed a single slow touch does
      not move on: the page's own listener only records the time, and the
      loop's listener, which then fires, opens the envelope instead. A quick
      touch moves on through the page's own listener and the loop's records
      the time. */
  lemma {:induction false} EnvelopePageTapOpens(s: State, now: int)
    requires Valid(s)
    requires s.nav.current == EnvelopePage && !s.envelopeOpen
    requires now > Gesture.DoubleTapDelay
    ensures now - s.lastTap > Gesture.DoubleTapDelay ==>
      Step(s, Touch(Section(EnvelopePage), now)) == OpenEnvelope(s).(lastTap := 0)
    ensures now - s.lastTap <= Gesture.DoubleTapDelay ==>
      Step(s, Touch(Section(EnvelopePage), now)) == NextPage(s).(lastTap := now)
  {
    var l1, l2 := Listener(true, Fixed(GoNext)), Listener(true, SectionHandler(EnvelopePage));
    assert SectionHandlers(s, EnvelopePage) == [l1.handler, l2.handler];
    assert TouchListeners(s, Section(EnvelopePage)) == [l1, l2];
    DispatchTwo(s, l1, l2, now);
    var s1 := Dispatch(s, l1, now);
    if now - s.lastTap <= Gesture.DoubleTapDelay {
      assert s1 == NextPage(s).(lastTap := 0);
      assert Dispatch(s1, l2, now) == s1.(lastTap := now);
    } else {
      assert s1 == s.(lastTap := now);
      assert Run(s1, l2.handler) == OpenEnvelope(s1);
    }
  }

  /** On the songs page a single slow touch goes on to the last page through
      the closing loop's listener alone, so the music keeps playing. */
  lemma {:induction false} SongsTapKeepsMusic(s: State, now: int)
    requires Valid(s)
    requires s.nav.current == PlayerPage && s.nav.Total() > PlayerPage + 1
    requires now > Gesture.DoubleTapDelay && now - s.lastTap > Gesture.DoubleTapDelay
    ensures Step(s, Touch(Section(PlayerPage), now)).nav.current == PlayerPage + 1
    ensures Step(s, Touch(Section(PlayerPage), now)).player == s.player
    ensures Step(s, Touch(Section(PlayerPage), now)).lastTap == 0
  {
    var l1, l2 := Listener(true, Fixed(StopAndGoNext)), Listener(true, SectionHandler(PlayerPage));
    assert SectionHandlers(s, PlayerPage) == [l1.handler, l2.handler];
    assert TouchListeners(s, Section(PlayerPage)) == [l1, l2];
    DispatchTwo(s, l1, l2, now);
    var s1 := Dispatch(s, l1, now);
    assert s1 == s.(lastTap := now);
    assert Run(s1, l2.handler) == NextPage(s1);
  }

  /** A quick touch on the songs page goes through the page's own listener,
      which silences the audio first. */
  lemma {:induction false} SongsQuickTapStops(s: State, now: int)
    requires Valid(s)
    requires s.nav.current == PlayerPage && s.nav.Total() > PlayerPage + 1
    requires now > Gesture.DoubleTapDelay && now - s.lastTap <= Gesture.DoubleTapDelay
    ensures Step(s, Touch(Section(PlayerPage), now)).nav.current == PlayerPage + 1
    ensures Step(s, Touch(Section(PlayerPage), now)).player.playing == {}
    ensures Step(s, Touch(Section(PlayerPage), now)).lastTap == now
  {
    var l1, l2 := Listener(true, Fixed(StopAndGoNext)), Listener(true, SectionHandler(PlayerPage));
    assert SectionHandlers(s, PlayerPage) == [l1.handler, l2.handler];
    assert TouchListeners(s, Section(PlayerPage)) == [l1, l2];
    DispatchTwo(s, l1, l2, now);
    var s1 := Dispatch(s, l1, now);
    assert s1 == NextPage(s.(player := Audio.StopAll(s.player))).(lastTap := 0);
    assert Dispatch(s1, l2, now) == s1.(lastTap := now);
  }

  /** Touching the closed envelope opens it, and the section's listeners then
      move on at once; when the envelope's timer fires later it moves on a
      second time, past the letter page. */
  lemma {:induction false} EnvelopeTapSkipsLetter(s: State, now: int)
    requires Valid(s)
    requires s.nav.current == EnvelopePage && s.nav.Total() > EnvelopePage + 2
    requires !s.envelopeOpen && now > Gesture.DoubleTapDelay
    ensures Step(s, Touch(Envelope, now)).envelopeOpen
    ensures Step(s, Touch(Envelope, now)).nav.current == EnvelopePage + 1
    ensures Step(s, Touch(Envelope, now)).pending == s.pending + [AutoAdvance]
    ensures Step(Step(s, Touch(Envelope, now)), TimerFires(|s.pending|)).nav.current == EnvelopePage + 2
  {
    var l0 := Listener(false, Fixed(OpenEnv));
    var l1, l2 := Listener(true, Fixed(GoNext)), Listener(true, SectionHandler(EnvelopePage));
    var ls := [l0, l1, l2];
    assert SectionHandlers(s, EnvelopePage) == [l1.handler, l2.handler];
    assert TouchListeners(s, Envelope) == ls;
    var s0 := OpenEnvelope(s);
    assert Dispatch(s, l0, now) == s0;
    assert ls[1..] == [l1, l2];
    assert DispatchAll(s, ls, now) == DispatchAll(s0, [l1, l2], now);
    DispatchTwo(s0, l1, l2, now);
    var s1 := Dispatch(s0, l1, now);
    var r := Dispatch(s1, l2, now);
    if now - s.lastTap <= Gesture.DoubleTapDelay {
      assert s1 == NextPage(s0).(lastTap := 0);
      assert r == s1.(lastTap := now);
    } else {
      assert s1 == s0.(lastTap := now);
      assert Run(s1, l2.handler) == NextPage(s1);
    }
    assert r.pending[|s.pending|] == AutoAdvance;
    assert Step(r, TimerFires(|s.pending|)) == Fire(r, |s.pending|);
  }

  /** A touch on the last page's background reaches no listener: nothing
      changes, not even the shared timestamp. */
  lemma LastPageTouchInert(s: State, now: int)
    requires Valid(s)
    ensures Step(s, Touch(Section(FlipPage), now)) == s
  {
  }

  /** A flip card has one `touchend` listener of its own and its section
      none, so through that listener it takes a real double tap: the first
      touch only records the time, a second within the delay toggles the
      card, and a later one only records its time again. */
  lemma {:induction false} FlipCardDoubleTap(s: State, c: int, t1: int, t2: int)
    requires Valid(s)
    requires t1 - s.lastTap > Gesture.DoubleTapDelay
    ensures Step(s, Touch(FlipCard(c), t1)) == s.(lastTap := t1)
    ensures t2 - t1 <= Gesture.DoubleTapDelay ==>
      Step(Step(s, Touch(FlipCard(c), t1)), Touch(FlipCard(c), t2)) == ToggleFlip(s, c).(lastTap := 0)
    ensures t2 - t1 > Gesture.DoubleTapDelay ==>
      Step(Step(s, Touch(FlipCard(c), t1)), Touch(FlipCard(c), t2)) == s.(lastTap := t2)
  {
    var l := Listener(true, Fixed(ToggleCard(c)));
    assert SectionHandlers(s, FlipPage) == [];
    assert TouchListeners(s, FlipCard(c)) == [l];
    DispatchOne(s, l, t1);
    var s1 := s.(lastTap := t1);
    assert SectionHandlers(s1, FlipPage) == [];
    assert TouchListeners(s1, FlipCard(c)) == [l];
    DispatchOne(s1, l, t2);
    if t2 - t1 <= Gesture.DoubleTapDelay {
      assert Run(s1, l.handler) == ToggleFlip(s1, c);
    }
  }

  /** A double click on `page-1`, `page-3` or `page-4` reaches both of its handlers and
      moves on two pages. */
  lemma {:induction false} DoubleClickAdvancesTwice(s: State)
    requires Valid(s)
    requires s.nav.current in {0, 2, 3} && s.nav.current < s.nav.Total() - 2
    ensures Step(s, DoubleClick(Section(s.nav.current))).nav.current == s.nav.current + 2
  {
    var p := s.nav.current;
    var l1, l2 := Listener(false, Fixed(GoNext)), Listener(false, SectionHandler(p));
    assert SectionHandlers(s, p) == [l1.handler, l2.handler];
    assert DoubleClickListeners(s, Section(p)) == [l1, l2];
    DispatchTwo(s, l1, l2, 0);
    var s1 := Dispatch(s, l1, 0);
    assert s1 == NextPage(s);
    assert Run(s1, l2.handler) == NextPage(s1);
  }

  /** A double click on the envelope page with the envelope closed: the page's
      own handler moves on first, then the loop's handler still opens the
      envelope and schedules its advance. */
  lemma {:induction false} DoubleClickEnvelopePage(s: State)
    requires Valid(s)
    requires s.nav.current == EnvelopePage && s.nav.Total() > EnvelopePage + 1 && !s.envelopeOpen
    ensures Step(s, DoubleClick(Section(EnvelopePage))).nav.current == EnvelopePage + 1
    ensures Step(s, DoubleClick(Section(EnvelopePage))).envelopeOpen
    ensures Step(s, DoubleClick(Section(EnvelopePage))).pending == s.pending + [AutoAdvance]
  {
    var l1, l2 := Listener(false, Fixed(GoNext)), Listener(false, SectionHandler(EnvelopePage));
    assert SectionHandlers(s, EnvelopePage) == [l1.handler, l2.handler];
    assert DoubleClickListeners(s, Section(EnvelopePage)) == [l1, l2];
    DispatchTwo(s, l1, l2, 0);
    var s1 := Dispatch(s, l1, 0);
    assert s1 == NextPage(s);
    assert Run(s1, l2.handler) == OpenEnvelope(s1);
  }

  /** Replay does not cancel the envelope's timer: opening the envelope and
      replaying before the timer fires ends on the second page, not the first. */
  lemma ReplayKeepsAutoAdvance(s: State)
    requires Valid(s) && s.nav.Total() >= 2
    ensures Step(Step(Step(s, Press(EnvelopeButton)), Press(Replay)), TimerFires(|s.pending|)).nav.current == 1
  {
  }

  /** Un-flip timers are not restarted: after three clicks the card is flipped,
      yet the first click's timer turns it back. */
  lemma {:induction false} EarlyUnflip(s: State, c: int)
    requires Valid(s) && c !in s.flipped
    ensures c in Session(s, [FlipClick(c), FlipClick(c), FlipClick(c)]).flipped
    ensures c !in Step(Session(s, [FlipClick(c), FlipClick(c), FlipClick(c)]), TimerFires(|s.pending|)).flipped
  {
    var e := FlipClick(c);
    var s1 := Step(s, e);
    var s2 := Step(s1, e);
    var s3 := Step(s2, e);
    assert [e, e, e] == [e] + [e, e];
    SessionCons(s, e, [e, e]);
    assert [e, e] == [e] + [e];
    SessionCons(s1, e, [e]);
    assert [e] == [e] + [];
    SessionCons(s2, e, []);
    assert s3.pending[|s.pending|] == Unflip(c);
  }

  /** A session is its first input followed by the rest. */
  lemma SessionCons(s: State, e: Event, es: seq<Event>)
    requires Valid(s)
    ensures Session(s, [e] + es) == Session(Step(s, e), es)
  {
  }

  /** Whatever the inputs, from page load on at most one track indicator is
      lit and at most one audio element plays. */
  lemma SingleTrackAlways(markup: seq<bool>, audioIds: set<int>, es: seq<Event>, t: int, u: int)
    requires |markup| >= 1
    ensures |Session(Init(markup, audioIds), es).player.playing| <= 1
    ensures var p := Session(Init(markup, audioIds), es).player;
      t in p.audios && !p.audios[t].paused && u in p.audios && !p.audios[u].paused ==> t == u
  {
    var p := Session(Init(markup, audioIds), es).player;
    if t in p.audios && !p.audios[t].paused && u in p.audios && !p.audios[u].paused {
      Audio.AtMostOneAudible(p, t, u);
    }
  }
}
