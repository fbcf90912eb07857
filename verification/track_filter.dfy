/**
 * The track filter behind "Keep Selected Tracks" and "Remove Selected
 * Tracks": a new document with the source's ticks per beat and the tracks
 * whose position passes the selection, in their original order, or nothing
 * when no track passes (presenters.py, `_process_tracks`).
 */
module TrackFilter {
  import opened Wrappers
  import opened Midi

  /**
   * The polarity of a filtering request with the user's list of track
   * indices. The list is used only through membership, so duplicates and
   * indices that name no track change nothing.
   */
  datatype Selection = Keep(indices: seq<int>) | Remove(indices: seq<int>)

  /** Track `i` is carried over: listed in keep mode, or not listed in remove mode. */
  predicate Survives(sel: Selection, i: int)
  {
    match sel
    case Keep(ix) => i in ix
    case Remove(ix) => i !in ix
  }

  /** The tracks that survive `sel`, in original order, built by appending as the source does. */
  function Kept(tracks: seq<Track>, sel: Selection): seq<Track>
    decreases |tracks|
  {
    if tracks == [] then []
    else
      var n := |tracks| - 1;
      Kept(tracks[..n], sel) + (if Survives(sel, n) then [tracks[n]] else [])
  }

  /** The positions below `n` that survive `sel`, in increasing order. */
  function SurvivingIndices(n: nat, sel: Selection): seq<nat>
  {
    if n == 0 then []
    else SurvivingIndices(n - 1, sel) + (if Survives(sel, n - 1) then [n - 1] else [])
  }

  /** The filtered document, or `None` when no track survives. */
  function Filter(doc: Doc, sel: Selection): (r: Option<Doc>)
    ensures r.None? <==> forall i :: 0 <= i < |doc.tracks| ==> !Survives(sel, i)
    ensures r.Some? ==> r.value.ticksPerBeat == doc.ticksPerBeat
    ensures r.Some? ==> 0 < |r.value.tracks| <= |doc.tracks|
  {
    var kept := Kept(doc.tracks, sel);
    EmptyExactlyWhenNoneSurvive(doc.tracks, sel);
    KeptIsIndexed(doc.tracks, sel);
    SurvivingIndicesSpec(|doc.tracks|, sel);
    if kept == [] then None else Some(Doc(doc.ticksPerBeat, kept))
  }

  /** `SurvivingIndices` lists exactly the surviving positions below `n`, strictly increasing. */
  lemma {:induction false} SurvivingIndicesSpec(n: nat, sel: Selection)
    ensures forall i :: i in SurvivingIndices(n, sel) <==> 0 <= i < n && Survives(sel, i)
    ensures forall a, b :: 0 <= a < b < |SurvivingIndices(n, sel)| ==>
              SurvivingIndices(n, sel)[a] < SurvivingIndices(n, sel)[b]
    ensures |SurvivingIndices(n, sel)| <= n
  {
    if n > 0 {
      SurvivingIndicesSpec(n - 1, sel);
      var prev := SurvivingIndices(n - 1, sel);
      assert forall a :: 0 <= a < |prev| ==> prev[a] in prev && prev[a] < n - 1;
    }
  }

  /**
   * The kept tracks are the source tracks at the surviving positions, one
   * for one and in the same order. Together with `SurvivingIndicesSpec`:
   * in keep mode the output is exactly the listed tracks, in remove mode
   * exactly the unlisted ones, each in original order.
   */
  lemma {:induction false} KeptIsIndexed(tracks: seq<Track>, sel: Selection)
    ensures |Kept(tracks, sel)| == |SurvivingIndices(|tracks|, sel)|
    ensures forall k :: 0 <= k < |Kept(tracks, sel)| ==>
              SurvivingIndices(|tracks|, sel)[k] < |tracks| &&
              Kept(tracks, sel)[k] == tracks[SurvivingIndices(|tracks|, sel)[k]]
  {
    if tracks != [] {
      var n := |tracks| - 1;
      KeptIsIndexed(tracks[..n], sel);
      SurvivingIndicesSpec(n, sel);
      assert forall k :: 0 <= k < n ==> tracks[..n][k] == tracks[k];
    }
  }

  /** No track is kept exactly when no position survives. */
  lemma {:induction false} EmptyExactlyWhenNoneSurvive(tracks: seq<Track>, sel: Selection)
    ensures Kept(tracks, sel) == [] <==> forall i :: 0 <= i < |tracks| ==> !Survives(sel, i)
  {
    if tracks != [] {
      var n := |tracks| - 1;
      EmptyExactlyWhenNoneSurvive(tracks[..n], sel);
    }
  }

  /**
   * For one index list, keep mode and remove mode split the tracks between
   * them: every track lands in exactly one of the two outputs.
   */
  lemma {:induction false} KeepAndRemovePartition(tracks: seq<Track>, ix: seq<int>)
    ensures multiset(Kept(tracks, Keep(ix))) + multiset(Kept(tracks, Remove(ix))) == multiset(tracks)
    ensures |Kept(tracks, Keep(ix))| + |Kept(tracks, Remove(ix))| == |tracks|
  {
    if tracks != [] {
      var n := |tracks| - 1;
      var init := tracks[..n];
      KeepAndRemovePartition(init, ix);
      assert tracks == init + [tracks[n]];
      var k, r := Kept(init, Keep(ix)), Kept(init, Remove(ix));
      if n in ix {
        assert Kept(tracks, Keep(ix)) == k + [tracks[n]];
        assert Kept(tracks, Remove(ix)) == r;
      } else {
        assert Kept(tracks, Keep(ix)) == k;
        assert Kept(tracks, Remove(ix)) == r + [tracks[n]];
      }
    }
  }

  /** Removing an empty selection returns every track unchanged. */
  lemma {:induction false} RemoveNothingKeepsAll(tracks: seq<Track>)
    ensures Kept(tracks, Remove([])) == tracks
  {
    if tracks != [] {
      var n := |tracks| - 1;
      RemoveNothingKeepsAll(tracks[..n]);
      assert tracks == tracks[..n] + [tracks[n]];
    }
  }

  /** Removing a selection that lists every track leaves nothing, so the filter reports `None`. */
  lemma RemoveEveryTrackIsEmpty(doc: Doc, ix: seq<int>)
    requires forall i :: 0 <= i < |doc.tracks| ==> i in ix
    ensures Filter(doc, Remove(ix)) == None
  {
    EmptyExactlyWhenNoneSurvive(doc.tracks, Remove(ix));
  }

  /** Two index lists that agree on the positions of the tracks select the same tracks, in either mode. */
  lemma {:induction false} OnlyMembershipInRangeMatters(tracks: seq<Track>, ix1: seq<int>, ix2: seq<int>)
    requires forall i :: 0 <= i < |tracks| ==> (i in ix1 <==> i in ix2)
    ensures Kept(tracks, Keep(ix1)) == Kept(tracks, Keep(ix2))
    ensures Kept(tracks, Remove(ix1)) == Kept(tracks, Remove(ix2))
  {
    if tracks != [] {
      var n := |tracks| - 1;
      OnlyMembershipInRangeMatters(tracks[..n], ix1, ix2);
    }
  }

  /** Adding an index that names no track, or one already listed, does not change the output. */
  lemma {:induction false} ExtraIndexIgnored(tracks: seq<Track>, ix: seq<int>, j: int)
    requires j < 0 || j >= |tracks| || j in ix
    ensures Kept(tracks, Keep(ix + [j])) == Kept(tracks, Keep(ix))
    ensures Kept(tracks, Remove(ix + [j])) == Kept(tracks, Remove(ix))
  {
    OnlyMembershipInRangeMatters(tracks, ix + [j], ix);
  }
}
