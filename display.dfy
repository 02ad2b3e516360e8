/** The display side of the audio queue: each call takes at most ten
    `volume_update` entries off the front of the queue for the volume chart,
    puts the first other entry back at the tail and stops; the chart keeps a
    bounded history of the values it was given. */
module Display {
  import opened Events

  /** At most this many `volume_update` entries are taken per call. */
  const MaxPerCall: nat := 10
  /** The chart keeps this many values. */
  const MaxHistory: nat := 100

  /** One history update: append the new value, then drop the oldest once if
      the list has grown past `MaxHistory`. */
  function AppendBounded(history: seq<real>, v: real): (r: seq<real>)
    ensures |history| <= MaxHistory ==> |r| == if |history| < MaxHistory then |history| + 1 else MaxHistory
    ensures |r| > 0 && r[|r| - 1] == v
    ensures |r| <= |history| + 1 && r == (history + [v])[|history| + 1 - |r|..]
  {
    var h := history + [v];
    if |h| > MaxHistory then h[1..] else h
  }

  /** The history after the chart has been given the values vs in order. */
  function AppendAll(history: seq<real>, vs: seq<real>): seq<real>
    decreases |vs|
  {
    if vs == [] then history
    else AppendBounded(AppendAll(history, vs[..|vs| - 1]), vs[|vs| - 1])
  }

  /** The history never exceeds `MaxHistory` entries and, after a non-empty
      update, ends with the newest value. */
  lemma {:induction false} AppendAllBounded(history: seq<real>, vs: seq<real>)
    requires |history| <= MaxHistory
    ensures |AppendAll(history, vs)| <= MaxHistory
    ensures vs != [] ==> |AppendAll(history, vs)| > 0 && AppendAll(history, vs)[|AppendAll(history, vs)| - 1] == vs[|vs| - 1]
    decreases |vs|
  {
    if vs != [] {
      AppendAllBounded(history, vs[..|vs| - 1]);
    }
  }

  /** What one call of the display consumer takes and leaves. */
  datatype Taken = Taken(volumes: seq<real>, rest: seq<AudioEvent>)

  /** One call of the display consumer with `budget` entries left to take. */
  function DrainForDisplay(q: seq<AudioEvent>, budget: nat): Taken
    decreases |q|
  {
    if budget == 0 || q == [] then Taken([], q)
    else if q[0].VolumeUpdate? then
      var t := DrainForDisplay(q[1..], budget - 1);
      Taken([q[0].value] + t.volumes, t.rest)
    else Taken([], q[1..] + [q[0]])
  }

  /** The volumes taken are the values of the leading `volume_update` entries,
      no more than the budget; the call stops at the budget, at the end of the
      queue or at the first other entry, which it moves to the tail. */
  lemma {:induction false} DrainTakesLeadingVolumes(q: seq<AudioEvent>, budget: nat)
    ensures var t := DrainForDisplay(q, budget); var n := |t.volumes|;
      && n <= budget && n <= |q|
      && (forall k :: 0 <= k < n ==> q[k] == VolumeUpdate(t.volumes[k]))
      && (n == budget || n == |q| ==> t.rest == q[n..])
      && (n < budget && n < |q| ==> !q[n].VolumeUpdate? && t.rest == q[n + 1..] + [q[n]])
    decreases |q|
  {
    if budget > 0 && q != [] && q[0].VolumeUpdate? {
      var tail := q[1..];
      DrainTakesLeadingVolumes(tail, budget - 1);
      var t := DrainForDisplay(tail, budget - 1);
      var n := |t.volumes|;
      var vs := [q[0].value] + t.volumes;
      assert DrainForDisplay(q, budget) == Taken(vs, t.rest);
      forall k | 0 <= k < n + 1 ensures q[k] == VolumeUpdate(vs[k]) {
        if k > 0 {
          assert q[k] == tail[k - 1] && vs[k] == t.volumes[k - 1];
        }
      }
      assert tail[n..] == q[n + 1..];
      if n < budget - 1 && n < |tail| {
        assert tail[n] == q[n + 1] && tail[n + 1..] == q[n + 2..];
      }
    }
  }

  /** The call loses and duplicates nothing: the queue's multiset is what is
      left plus the entries taken, which are its first |volumes| entries. */
  lemma {:induction false} DrainConserves(q: seq<AudioEvent>, budget: nat)
    ensures var t := DrainForDisplay(q, budget);
      |t.volumes| <= |q| && multiset(q) == multiset(t.rest) + multiset(q[..|t.volumes|])
    decreases |q|
  {
    if budget > 0 && q != [] {
      assert q == [q[0]] + q[1..];
      assert multiset(q) == multiset{q[0]} + multiset(q[1..]);
      if q[0].VolumeUpdate? {
        DrainConserves(q[1..], budget - 1);
        var t := DrainForDisplay(q[1..], budget - 1);
        var n := |t.volumes|;
        assert DrainForDisplay(q, budget) == Taken([q[0].value] + t.volumes, t.rest);
        assert q[..n + 1] == [q[0]] + q[1..][..n];
        assert multiset(q[..n + 1]) == multiset{q[0]} + multiset(q[1..][..n]);
      } else {
        assert DrainForDisplay(q, budget) == Taken([], q[1..] + [q[0]]);
        assert multiset(q[1..] + [q[0]]) == multiset(q[1..]) + multiset{q[0]};
        assert q[..0] == [];
      }
    } else {
      assert q[..0] == [];
    }
  }

  /** In particular the `sound_detected` entries are exactly those of before:
      the one moved to the tail is put back, not dropped. */
  lemma {:induction false} DrainKeepsSounds(q: seq<AudioEvent>, budget: nat)
    ensures Sounds(DrainForDisplay(q, budget).rest) == Sounds(q)
    decreases |q|
  {
    if budget > 0 && q != [] {
      if q[0].VolumeUpdate? {
        DrainKeepsSounds(q[1..], budget - 1);
        assert DrainForDisplay(q, budget).rest == DrainForDisplay(q[1..], budget - 1).rest;
        assert Sounds(q) == Sounds(q[1..]);
      } else {
        assert DrainForDisplay(q, budget).rest == q[1..] + [q[0]];
        SoundsAppend(q[1..], [q[0]]);
        assert [q[0]][1..] == [];
        assert Sounds([q[0]]) == multiset{q[0]};
        assert Sounds(q) == multiset{q[0]} + Sounds(q[1..]);
      }
    }
  }

  /** The queue holds a `sound_detected` after a call exactly when it held one
      before, so a later wait that drains the whole queue still finds it. */
  lemma DrainKeepsBite(q: seq<AudioEvent>, budget: nat)
    ensures HasSound(DrainForDisplay(q, budget).rest) <==> HasSound(q)
  {
    DrainKeepsSounds(q, budget);
    SoundsNonEmpty(q);
    SoundsNonEmpty(DrainForDisplay(q, budget).rest);
  }

  /** The put-back does not keep the order: a `sound_detected` at the head moves
      behind the `volume_update` that followed it. */
  lemma PutBackReorders()
    ensures DrainForDisplay([SoundDetected(0.5), VolumeUpdate(0.2)], MaxPerCall).rest
         == [VolumeUpdate(0.2), SoundDetected(0.5)]
  {
  }
}
