/** The double-tap classifier behind every `touchend` listener that
    `bindDoubleTap` installs. All such listeners share one `lastTap`
    timestamp, so one physical tap that reaches several of them runs the
    classifier once per listener, in registration order. */
module Gesture {

  /** Largest gap, in milliseconds, that still counts as a double tap. */
  const DoubleTapDelay: int := 300

  /** One classifier step: whether the bound handler runs, and the shared timestamp afterwards. */
  datatype Tap = Tap(fired: bool, lastTap: int)

  /** A tap at `now` fires when it comes within the delay of the recorded
      tap, and then clears the record to 0; otherwise it only records `now`. */
  function Classify(lastTap: int, now: int): (t: Tap)
    ensures t.fired ==> t.lastTap == 0
    ensures !t.fired ==> t.lastTap == now
  {
    if now - lastTap <= DoubleTapDelay then Tap(true, 0) else Tap(false, now)
  }

  /** A tap fires exactly when its gap to the recorded tap is at most the delay. */
  lemma FiresIffWithinDelay(lastTap: int, now: int)
    ensures Classify(lastTap, now).fired <==> now - lastTap <= DoubleTapDelay
  {
  }

  /** Right after a tap that fired, the next tap (at any realistic clock
      value, above the delay) starts a fresh window instead of firing again. */
  lemma NoChainAfterFire(lastTap: int, now: int, later: int)
    requires Classify(lastTap, now).fired
    requires later > DoubleTapDelay
    ensures !Classify(Classify(lastTap, now).lastTap, later).fired
  {
  }

  /** Two taps on a classifier that did not fire on the first: the second fires
      exactly when it follows within the delay. */
  lemma SecondTapFiresIffQuick(lastTap: int, t1: int, t2: int)
    requires !Classify(lastTap, t1).fired
    ensures Classify(Classify(lastTap, t1).lastTap, t2).fired <==> t2 - t1 <= DoubleTapDelay
  {
  }

  /** Which of `n` listeners reached in turn by one tap at `now` fire,
      starting from the shared timestamp `lastTap`. */
  function Firings(lastTap: int, now: int, n: nat): (r: seq<bool>)
    ensures |r| == n
    decreases n
  {
    if n == 0 then []
    else
      var t := Classify(lastTap, now);
      [t.fired] + Firings(t.lastTap, now, n - 1)
  }

  /** The shared timestamp after `n` listeners have classified one tap at `now`. */
  function TapAfter(lastTap: int, now: int, n: nat): int
    decreases n
  {
    if n == 0 then lastTap else TapAfter(Classify(lastTap, now).lastTap, now, n - 1)
  }

  /** With a realistic clock, the listeners reached by one tap fire
      alternately: the first fires iff the tap is quick, and no two
      neighbours agree. So a single tap that reaches two listeners always
      runs exactly one handler. */
  lemma {:induction false} FiringsAlternate(lastTap: int, now: int, n: nat)
    requires now > DoubleTapDelay
    ensures n > 0 ==> (Firings(lastTap, now, n)[0] <==> now - lastTap <= DoubleTapDelay)
    ensures forall i :: 0 <= i < n - 1 ==> Firings(lastTap, now, n)[i] != Firings(lastTap, now, n)[i + 1]
    decreases n
  {
    if n > 0 {
      var t := Classify(lastTap, now);
      var rest := Firings(t.lastTap, now, n - 1);
      FiringsAlternate(t.lastTap, now, n - 1);
      assert Firings(lastTap, now, n) == [t.fired] + rest;
      if n > 1 {
        assert rest[0] != t.fired;
      }
    }
  }

  /** The timestamp left behind is 0 when the last listener fired and `now` otherwise. */
  lemma {:induction false} TapAfterLast(lastTap: int, now: int, n: nat)
    requires n > 0
    ensures TapAfter(lastTap, now, n) == (if Firings(lastTap, now, n)[n - 1] then 0 else now)
    decreases n
  {
    var t := Classify(lastTap, now);
    if n > 1 {
      TapAfterLast(t.lastTap, now, n - 1);
    }
  }
}
