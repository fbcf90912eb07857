/**
 * Tempo preservation: the first `set_tempo` value of a file, looked up track
 * by track and message by message (models.py, `get_tempo`), and the tempo
 * message appended to the first track of a filtered file
 * (presenters.py, `process_files`). Tempos are microseconds per beat.
 */
module Tempo {
  import opened Wrappers
  import opened Midi

  /** The tempo used when a file has no `set_tempo` message, in beats per minute. */
  const DefaultBpm: nat := 99

  /**
   * Beats per minute to microseconds per beat: 60 000 000 / bpm rounded to
   * the nearest integer, a tie going to the even neighbour as Python's
   * `round` does.
   */
  function BpmToTempo(bpm: nat): (r: nat)
    requires bpm > 0
    ensures 120_000_000 - bpm <= 2 * bpm * r <= 120_000_000 + bpm
    ensures 2 * bpm * r == 120_000_000 + bpm || 2 * bpm * r == 120_000_000 - bpm ==> r % 2 == 0
  {
    var q, rem := 60_000_000 / bpm, 60_000_000 % bpm;
    ScaledQuotient(bpm, q, rem);
    if 2 * rem < bpm then q
    else if 2 * rem > bpm then q + 1
    else if q % 2 == 0 then q
    else q + 1
  }

  /** The products the rounding compares, written in terms of the remainder. */
  lemma ScaledQuotient(bpm: nat, q: nat, rem: nat)
    requires bpm > 0 && q == 60_000_000 / bpm && rem == 60_000_000 % bpm
    ensures 2 * bpm * q == 120_000_000 - 2 * rem
    ensures 2 * bpm * (q + 1) == 120_000_000 - 2 * rem + 2 * bpm
    ensures rem < bpm
  {
    var m := bpm * q;
    assert m + rem == 60_000_000;
    assert 2 * bpm * q == 2 * m;
    assert 2 * bpm * (q + 1) == 2 * m + 2 * bpm;
  }

  /** 99 BPM is 606 061 microseconds per beat. */
  lemma DefaultTempoValue()
    ensures BpmToTempo(DefaultBpm) == 606_061
  {
    assert 60_000_000 == 99 * 606_060 + 60;
  }

  /** The tempo written when a file has none: 99 BPM in microseconds per beat. */
  function DefaultTempo(): nat
  {
    BpmToTempo(DefaultBpm)
  }

  /** The first `set_tempo` value within one track. */
  function FirstTempoIn(t: Track): Option<nat>
  {
    if t == [] then None
    else
      match t[0]
      case SetTempo(v) => Some(v)
      case _ => FirstTempoIn(t[1..])
  }

  /** The first `set_tempo` value of a file: tracks in order, and messages in order within each. */
  function FirstTempo(tracks: seq<Track>): Option<nat>
  {
    if tracks == [] then None
    else
      match FirstTempoIn(tracks[0])
      case Some(v) => Some(v)
      case None => FirstTempo(tracks[1..])
  }

  /** The tempo re-attached to a filtered file: the file's first tempo, or the default. */
  function TempoToWrite(doc: Doc): nat
  {
    match FirstTempo(doc.tracks)
    case Some(v) => v
    case None => DefaultTempo()
  }

  /** A copy of `doc` whose first track ends with a `set_tempo` message carrying `tempo`. */
  function Inject(doc: Doc, tempo: nat): Doc
    requires |doc.tracks| > 0
  {
    doc.(tracks := doc.tracks[0 := doc.tracks[0] + [SetTempo(tempo)]])
  }

  /** Position (i, j) comes before position (i2, j2) in track-major, message-minor order. */
  predicate Before(i: int, j: int, i2: int, j2: int)
  {
    i < i2 || (i == i2 && j < j2)
  }

  lemma {:induction false} FirstTempoInNoneIff(t: Track)
    ensures FirstTempoIn(t).None? <==> forall j :: 0 <= j < |t| ==> !t[j].SetTempo?
  {
    if t != [] {
      FirstTempoInNoneIff(t[1..]);
      assert forall j :: 1 <= j < |t| ==> t[j] == t[1..][j - 1];
    }
  }

  lemma {:induction false} FirstTempoInIsEarliest(t: Track, j: nat)
    requires j < |t| && t[j].SetTempo?
    requires forall l :: 0 <= l < j ==> !t[l].SetTempo?
    ensures FirstTempoIn(t) == Some(t[j].tempo)
  {
    if j > 0 {
      assert forall l :: 0 <= l < j - 1 ==> t[1..][l] == t[l + 1];
      FirstTempoInIsEarliest(t[1..], j - 1);
    }
  }

  /** A file has no tempo exactly when none of its messages is a `set_tempo`. */
  lemma {:induction false} FirstTempoNoneIff(tracks: seq<Track>)
    ensures FirstTempo(tracks).None? <==>
            forall i, j :: 0 <= i < |tracks| && 0 <= j < |tracks[i]| ==> !tracks[i][j].SetTempo?
  {
    if tracks != [] {
      FirstTempoInNoneIff(tracks[0]);
      FirstTempoNoneIff(tracks[1..]);
      assert forall i :: 1 <= i < |tracks| ==> tracks[i] == tracks[1..][i - 1];
    }
  }

  /**
   * The tempo found is the one at the earliest `set_tempo` position in
   * track-major, message-minor order.
   */
  lemma {:induction false} FirstTempoIsEarliest(tracks: seq<Track>, i: nat, j: nat)
    requires i < |tracks| && j < |tracks[i]| && tracks[i][j].SetTempo?
    requires forall i2, j2 :: 0 <= i2 < |tracks| && 0 <= j2 < |tracks[i2]| && Before(i2, j2, i, j)
               ==> !tracks[i2][j2].SetTempo?
    ensures FirstTempo(tracks) == Some(tracks[i][j].tempo)
  {
    if i == 0 {
      assert forall l :: 0 <= l < j ==> Before(0, l, i, j);
      FirstTempoInIsEarliest(tracks[0], j);
    } else {
      assert forall l :: 0 <= l < |tracks[0]| ==> Before(0, l, i, j);
      FirstTempoInNoneIff(tracks[0]);
      var rest: seq<Track> := tracks[1..];
      forall i2, j2 | 0 <= i2 < |rest| && 0 <= j2 < |rest[i2]| && Before(i2, j2, i - 1, j)
        ensures !rest[i2][j2].SetTempo?
      {
        assert rest[i2] == tracks[i2 + 1] && Before(i2 + 1, j2, i, j);
      }
      FirstTempoIsEarliest(rest, i - 1, j);
    }
  }

  lemma {:induction false} FirstTempoInAppend(t: Track, m: Message)
    ensures FirstTempoIn(t + [m]) ==
            if FirstTempoIn(t).Some? then FirstTempoIn(t)
            else if m.SetTempo? then Some(m.tempo) else None
  {
    if t != [] {
      assert (t + [m])[1..] == t[1..] + [m];
      FirstTempoInAppend(t[1..], m);
    }
  }

  /**
   * Reading the tempo back from an injected file finds the injected value
   * unless the first track already holds a `set_tempo` of its own, which
   * is then found first.
   */
  lemma ReadBackAfterInject(doc: Doc, tempo: nat)
    requires |doc.tracks| > 0
    ensures FirstTempo(Inject(doc, tempo).tracks) ==
            if FirstTempoIn(doc.tracks[0]).Some? then FirstTempoIn(doc.tracks[0]) else Some(tempo)
  {
    FirstTempoInAppend(doc.tracks[0], SetTempo(tempo));
  }

  /** A file without any `set_tempo` message gets the default of 99 BPM. */
  lemma NoTempoWritesDefault(doc: Doc)
    requires forall i, j :: 0 <= i < |doc.tracks| && 0 <= j < |doc.tracks[i]| ==> !doc.tracks[i][j].SetTempo?
    ensures TempoToWrite(doc) == DefaultTempo() == BpmToTempo(99)
  {
    FirstTempoNoneIff(doc.tracks);
  }
}
