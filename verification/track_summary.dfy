/**
 * The per-track summary shown for the selected file: the track's position,
 * its name and how many messages of each type it holds
 * (presenters.py, `_analyze_tracks`).
 */
module TrackSummary {
  import opened Midi

  /** One row of the track list: index, name, and message type -> count. */
  datatype Summary = Summary(index: nat, name: string, counts: map<string, nat>)

  /** The name shown for a track without a `track_name` message. */
  const Unnamed: string := "Unnamed"

  /** The name of a track: each `track_name` message overrides the previous one. */
  function NameOf(t: Track): string
    decreases |t|
  {
    if t == [] then Unnamed
    else
      match t[|t| - 1]
      case TrackName(nm) => nm
      case _ => NameOf(t[..|t| - 1])
  }

  /** How often `k` was counted in `m` (0 when absent, as `dict.get(k, 0)`). */
  function CountIn(m: map<string, nat>, k: string): nat
  {
    if k in m then m[k] else 0
  }

  /** The type -> count tally of a track, one increment per message in order. */
  function Tally(t: Track): map<string, nat>
    decreases |t|
  {
    if t == [] then map[]
    else
      var m := Tally(t[..|t| - 1]);
      var k := Kind(t[|t| - 1]);
      m[k := CountIn(m, k) + 1]
  }

  /** The summary row of track `i`. */
  function Summarize(i: nat, t: Track): Summary
  {
    Summary(i, NameOf(t), Tally(t))
  }

  /** The type tags of a track's messages, in order. */
  function Kinds(t: Track): (r: seq<string>)
    ensures |r| == |t|
    ensures forall j :: 0 <= j < |t| ==> r[j] == Kind(t[j])
  {
    if t == [] then [] else Kinds(t[..|t| - 1]) + [Kind(t[|t| - 1])]
  }

  /** The sum of the counts of a tally. */
  ghost function Total(m: map<string, nat>): nat
    decreases m.Keys
  {
    if m.Keys == {} then 0
    else
      var k :| k in m;
      m[k] + Total(m - {k})
  }

  /** `n` copies of `k`. */
  function Copies(k: string, n: nat): (r: multiset<string>)
    ensures |r| == n
    ensures forall x :: r[x] == if x == k then n else 0
  {
    if n == 0 then multiset{} else Copies(k, n - 1) + multiset{k}
  }

  /**
   * The track's name is that of its last `track_name` message, or
   * "Unnamed" when it has none.
   */
  lemma {:induction false} NameIsLastTrackName(t: Track)
    ensures (forall j :: 0 <= j < |t| ==> !t[j].TrackName?) ==> NameOf(t) == Unnamed
    ensures forall j ::
              (0 <= j < |t| && t[j].TrackName? && forall l :: j < l < |t| ==> !t[l].TrackName?)
              ==> NameOf(t) == t[j].name
  {
    if t != [] {
      var n := |t| - 1;
      NameIsLastTrackName(t[..n]);
      assert forall j :: 0 <= j < n ==> t[..n][j] == t[j];
    }
  }

  /**
   * The tally is the multiset of the track's message types written as a
   * map: a type is a key exactly when it occurs, and its value is the
   * number of its occurrences.
   */
  lemma {:induction false} TallyCountsKinds(t: Track)
    ensures forall k :: CountIn(Tally(t), k) == multiset(Kinds(t))[k]
    ensures forall k :: k in Tally(t) <==> k in multiset(Kinds(t))
  {
    if t != [] {
      var n := |t| - 1;
      TallyCountsKinds(t[..n]);
      assert Kinds(t) == Kinds(t[..n]) + [Kind(t[n])];
    }
  }

  /** A map that agrees pointwise with a multiset sums to the multiset's size. */
  lemma {:induction false} TotalOfAgreeingMap(m: map<string, nat>, ms: multiset<string>)
    requires forall x :: CountIn(m, x) == ms[x]
    ensures Total(m) == |ms|
    decreases m.Keys
  {
    if m.Keys == {} {
      assert forall x :: ms[x] == 0;
      assert ms == multiset{};
    } else {
      forall k | k in m
        ensures m[k] + Total(m - {k}) == |ms|
      {
        var rest := ms[k := 0];
        assert forall x :: CountIn(m - {k}, x) == rest[x];
        TotalOfAgreeingMap(m - {k}, rest);
        var c := Copies(k, m[k]);
        assert forall x :: ms[x] == (rest + c)[x];
        assert ms == rest + c;
      }
    }
  }

  /** The counts of a track's summary add up to the number of its messages. */
  lemma CountsSumToLength(t: Track)
    ensures Total(Tally(t)) == |t|
  {
    TallyCountsKinds(t);
    TotalOfAgreeingMap(Tally(t), multiset(Kinds(t)));
  }
}
