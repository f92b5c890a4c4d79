/** The songs page: one `<audio id="audio-N">` per track index N, the
    `playing` indicator on the `.track` elements, and the play-button toggle
    that keeps a single track going at a time. */
module Audio {
  import opened Wrappers

  /** State of one audio element: the media `paused` flag, whether its
      position is known to be 0, and its own `playing` class. */
  datatype Track = Track(paused: bool, rewound: bool, marked: bool)

  /** Paused, rewound to 0, `playing` class removed: what `stopAllAudio` leaves. */
  const Silent := Track(true, true, false)

  /** `audios` maps a track index to its audio element; `playing` is the set of
      track indices whose `.track` element carries the `playing` class. */
  datatype Player = Player(audios: map<int, Track>, playing: set<int>)

  /** Single-channel playback: at most one track indicator is lit, only for a
      track that has audio, and any audio that is actually playing has its
      indicator lit. */
  ghost predicate Exclusive(p: Player) {
    && |p.playing| <= 1
    && p.playing <= p.audios.Keys
    && forall t :: t in p.audios && !p.audios[t].paused ==> t in p.playing
  }

  /** Under exclusivity no two audio elements play at once. */
  lemma AtMostOneAudible(p: Player, t: int, u: int)
    requires Exclusive(p)
    requires t in p.audios && !p.audios[t].paused
    requires u in p.audios && !p.audios[u].paused
    ensures t == u
  {
    var rest := p.playing - {t};
    assert |rest| == 0;
    assert p.playing == rest + {t};
  }

  /** `stopAllAudio()`: every audio paused, rewound and unmarked; no indicator lit. */
  function StopAll(p: Player): (r: Player)
    ensures r.audios.Keys == p.audios.Keys
    ensures forall t :: t in r.audios ==> r.audios[t] == Silent
    ensures r.playing == {}
    ensures Exclusive(r)
  {
    Player(map t | t in p.audios :: Silent, {})
  }

  /** A click on a play button. `track` is the index of the enclosing
      `.track`, `None` when there is none; a track without an audio element
      is ignored. `started` says whether the platform let `play()` start
      (a blocked autoplay leaves the audio paused and is swallowed). */
  function PressPlay(p: Player, track: Option<int>, started: bool): (r: Player)
    ensures r.audios.Keys == p.audios.Keys
    ensures track.None? || track.value !in p.audios ==> r == p
    // Clicking a playing track pauses only that audio and clears only its indicator.
    ensures track.Some? && track.value in p.audios && !p.audios[track.value].paused ==>
      && r.playing == p.playing - {track.value}
      && r.audios[track.value] == p.audios[track.value].(paused := true, marked := false)
      && forall u :: u in p.audios && u != track.value ==> r.audios[u] == p.audios[u]
    // Clicking a paused track silences every other one and lights only its own indicator.
    ensures track.Some? && track.value in p.audios && p.audios[track.value].paused ==>
      && r.playing == {track.value}
      && r.audios[track.value] == Track(!started, !started, true)
      && forall u :: u in p.audios && u != track.value ==> r.audios[u] == Silent
    ensures Exclusive(p) ==> Exclusive(r)
  {
    match track
    case None => p
    case Some(t) =>
      if t !in p.audios then p
      else if !p.audios[t].paused then
        Player(p.audios[t := p.audios[t].(paused := true, marked := false)], p.playing - {t})
      else
        var q := StopAll(p);
        Player(q.audios[t := Track(!started, !started, true)], {t})
  }

  /** The audio of `track` reached its end: the element pauses where it
      stopped and the `onended` handler clears that track's indicator only.
      Only a playing audio ends, and only the play branch of the button
      makes one play, so that handler is always installed. */
  function Ended(p: Player, track: int): (r: Player)
    ensures r.audios.Keys == p.audios.Keys
    ensures track !in p.audios || p.audios[track].paused ==> r == p
    ensures track in p.audios && !p.audios[track].paused ==>
      && r.playing == p.playing - {track}
      && r.audios[track].paused && !r.audios[track].rewound
      && r.audios[track].marked == p.audios[track].marked
      && forall u :: u in p.audios && u != track ==> r.audios[u] == p.audios[u]
    ensures Exclusive(p) ==> Exclusive(r)
  {
    if track in p.audios && !p.audios[track].paused then
      Player(p.audios[track := p.audios[track].(paused := true, rewound := false)], p.playing - {track})
    else p
  }

  /** The page became hidden: every audio pauses; positions, classes and
      indicators are left as they were. */
  function PauseAll(p: Player): (r: Player)
    ensures r.audios.Keys == p.audios.Keys
    ensures forall t :: t in r.audios ==>
      r.audios[t].paused && r.audios[t].rewound == p.audios[t].rewound && r.audios[t].marked == p.audios[t].marked
    ensures r.playing == p.playing
    ensures Exclusive(p) ==> Exclusive(r)
  {
    Player(map t | t in p.audios :: p.audios[t].(paused := true), p.playing)
  }

  /** Playing track 1 and then track 3 leaves exactly track 3's indicator lit. */
  lemma SwitchTracks(p: Player, s1: bool, s3: bool)
    requires Exclusive(p)
    requires 1 in p.audios && 3 in p.audios && p.audios[1].paused && p.audios[3].paused
    ensures PressPlay(PressPlay(p, Some(1), s1), Some(3), s3).playing == {3}
    ensures PressPlay(PressPlay(p, Some(1), s1), Some(3), s3).audios[1] == Silent
  {
  }

  /** Playing a track and pressing it again pauses it and lights no indicator. */
  lemma PlayThenPause(p: Player, t: int)
    requires Exclusive(p) && t in p.audios && p.audios[t].paused
    ensures PressPlay(PressPlay(p, Some(t), true), Some(t), true).playing == {}
    ensures PressPlay(PressPlay(p, Some(t), true), Some(t), true).audios[t].paused
  {
  }
}
