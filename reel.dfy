/** Reeling in: the key is held while the reel music plays. Events are left on
    the queue during the grace period of `min_reel_time`; afterwards every
    polling iteration drains the queue, tracks whether the music has started and
    when it was last heard, and the reel ends once the music has been quiet for
    longer than `additional_wait`, or after 120 seconds. */
module Reel {
  import opened Events

  /** The hard limit on reeling, in seconds. */
  const ReelTimeout: real := 120.0

  /** `current_volume` after a batch: the value of its last `volume_update`, or 0.0 if it has none. */
  function LastVolume(batch: seq<AudioEvent>): real {
    var vs := Volumes(batch);
    if vs == [] then 0.0 else vs[|vs| - 1]
  }

  /** The batch holds a `sound_detected` louder than the music threshold. */
  predicate LoudSound(batch: seq<AudioEvent>, threshold: real) {
    exists i :: 0 <= i < |batch| && batch[i].SoundDetected? && batch[i].value > threshold
  }

  /** The batch shows music: a loud `sound_detected`, or a last `volume_update` above the threshold. */
  predicate HearsMusic(batch: seq<AudioEvent>, threshold: real) {
    LoudSound(batch, threshold) || LastVolume(batch) > threshold
  }

  /** The exit test: music has been heard and has been quiet for longer than `additional_wait`. */
  predicate MusicOver(cfg: Config, music: bool, lastSound: real, now: real) {
    music && now - lastSound > cfg.additionalWait
  }

  /** The loop's locals between iterations, and what is on the queue. */
  datatype ReelState = ReelState(music: bool, lastSound: real, queue: seq<AudioEvent>)

  /** How the reel loop ended: whether the fish was caught, on which iteration,
      and the final values of `music_playing` and `last_sound_time`. */
  datatype ReelEnd = ReelEnd(caught: bool, tick: nat, music: bool, lastSound: real)

  /** The reel loop from iteration i on; the end of the trace stands for a stop request. */
  function ReelRun(cfg: Config, start: real, st: ReelState, ticks: seq<Tick>, i: nat): ReelEnd
    requires i <= |ticks|
    decreases |ticks| - i
  {
    if i == |ticks| || !Live(ticks[i]) then ReelEnd(false, i, st.music, st.lastSound)
    else
      var t := ticks[i];
      var q := st.queue + t.arrived;
      var elapsed := t.now - start;
      if elapsed >= cfg.minReelTime then
        var heard := HearsMusic(q, cfg.musicThreshold);
        var music := st.music || heard;
        var last := if heard then t.now else st.lastSound;
        if MusicOver(cfg, music, last, t.now) then ReelEnd(true, i, music, last)
        else if elapsed > ReelTimeout then ReelEnd(false, i, music, last)
        else ReelRun(cfg, start, ReelState(music, last, []), ticks, i + 1)
      else if elapsed > ReelTimeout then ReelEnd(false, i, st.music, st.lastSound)
      else ReelRun(cfg, start, ReelState(st.music, st.lastSound, q), ticks, i + 1)
  }

  /** The reel started at `start` with the key just pressed: no music yet, and
      `last_sound_time` set to the start. */
  function Reeling(cfg: Config, start: real, queue: seq<AudioEvent>, ticks: seq<Tick>): ReelEnd {
    ReelRun(cfg, start, ReelState(false, start, queue), ticks, 0)
  }

  /** A catch happens only on a live iteration past the grace period, with music
      heard and then quiet for longer than `additional_wait`. */
  lemma {:induction false} CatchConditions(cfg: Config, start: real, st: ReelState, ticks: seq<Tick>, i: nat)
    requires i <= |ticks|
    ensures var r := ReelRun(cfg, start, st, ticks, i);
      && i <= r.tick <= |ticks|
      && (r.caught ==>
            && r.tick < |ticks| && Live(ticks[r.tick])
            && ticks[r.tick].now - start >= cfg.minReelTime
            && r.music && ticks[r.tick].now - r.lastSound > cfg.additionalWait)
    decreases |ticks| - i
  {
    if i < |ticks| && Live(ticks[i]) {
      var t := ticks[i];
      var q := st.queue + t.arrived;
      if t.now - start >= cfg.minReelTime {
        var heard := HearsMusic(q, cfg.musicThreshold);
        var music := st.music || heard;
        var last := if heard then t.now else st.lastSound;
        CatchConditions(cfg, start, ReelState(music, last, []), ticks, i + 1);
      } else {
        CatchConditions(cfg, start, ReelState(st.music, st.lastSound, q), ticks, i + 1);
      }
    }
  }

  /** `music_playing` becomes true only on a live iteration at or past `min_reel_time`. */
  lemma {:induction false} MusicOnlyAfterGrace(cfg: Config, start: real, st: ReelState, ticks: seq<Tick>, i: nat)
    requires i <= |ticks|
    ensures var r := ReelRun(cfg, start, st, ticks, i);
      r.music ==> st.music || exists j :: i <= j < |ticks| && j <= r.tick && Live(ticks[j])
                                            && ticks[j].now - start >= cfg.minReelTime
    decreases |ticks| - i
  {
    if i < |ticks| && Live(ticks[i]) {
      var t := ticks[i];
      var q := st.queue + t.arrived;
      if t.now - start >= cfg.minReelTime {
        var heard := HearsMusic(q, cfg.musicThreshold);
        var music := st.music || heard;
        var last := if heard then t.now else st.lastSound;
        MusicOnlyAfterGrace(cfg, start, ReelState(music, last, []), ticks, i + 1);
        CatchConditions(cfg, start, ReelState(music, last, []), ticks, i + 1);
      } else {
        MusicOnlyAfterGrace(cfg, start, ReelState(st.music, st.lastSound, q), ticks, i + 1);
        CatchConditions(cfg, start, ReelState(st.music, st.lastSound, q), ticks, i + 1);
      }
    }
  }

  /** Every event on the queue and arriving later is at or below the music threshold. */
  predicate QuietFrom(threshold: real, q: seq<AudioEvent>, ticks: seq<Tick>, i: nat)
    requires i <= |ticks|
  {
    && (forall k :: 0 <= k < |q| ==> q[k].value <= threshold)
    && (forall j, k :: i <= j < |ticks| && 0 <= k < |ticks[j].arrived| ==> ticks[j].arrived[k].value <= threshold)
  }

  /** A batch of quiet events shows no music. */
  lemma QuietBatchNoMusic(batch: seq<AudioEvent>, threshold: real)
    requires forall k :: 0 <= k < |batch| ==> batch[k].value <= threshold
    requires threshold >= 0.0
    ensures !HearsMusic(batch, threshold)
  {
    var vs := Volumes(batch);
    if vs != [] {
      VolumeValuesFrom(batch, |vs| - 1);
    }
  }

  /** Each value in `Volumes(q)` is the value of some entry of q. */
  lemma {:induction false} VolumeValuesFrom(q: seq<AudioEvent>, n: nat)
    requires n < |Volumes(q)|
    ensures exists k :: 0 <= k < |q| && q[k].value == Volumes(q)[n]
    decreases |q|
  {
    if q[0].VolumeUpdate? && n == 0 {
      assert q[0].value == Volumes(q)[0];
    } else {
      var m := if q[0].VolumeUpdate? then n - 1 else n;
      assert Volumes(q)[n] == Volumes(q[1..])[m];
      VolumeValuesFrom(q[1..], m);
      var k :| 0 <= k < |q[1..]| && q[1..][k].value == Volumes(q[1..])[m];
      assert q[k + 1].value == Volumes(q)[n];
    }
  }

  /** With a non-negative threshold, a reel that only ever sees events at or
      below the music threshold never hears music, so it never catches a fish. */
  lemma {:induction false} QuietNeverCatches(cfg: Config, start: real, st: ReelState, ticks: seq<Tick>, i: nat)
    requires i <= |ticks| && cfg.musicThreshold >= 0.0 && !st.music
    requires QuietFrom(cfg.musicThreshold, st.queue, ticks, i)
    ensures !ReelRun(cfg, start, st, ticks, i).caught && !ReelRun(cfg, start, st, ticks, i).music
    decreases |ticks| - i
  {
    if i < |ticks| && Live(ticks[i]) {
      var t := ticks[i];
      var q := st.queue + t.arrived;
      forall k | 0 <= k < |q| ensures q[k].value <= cfg.musicThreshold {
        if k >= |st.queue| {
          assert q[k] == t.arrived[k - |st.queue|];
        }
      }
      if t.now - start >= cfg.minReelTime {
        QuietBatchNoMusic(q, cfg.musicThreshold);
        QuietNeverCatches(cfg, start, ReelState(false, st.lastSound, []), ticks, i + 1);
      } else {
        QuietNeverCatches(cfg, start, ReelState(false, st.lastSound, q), ticks, i + 1);
      }
    }
  }

  /** No iteration after an iteration past the 120-second limit is reached. */
  lemma {:induction false} ReelTimeoutBound(cfg: Config, start: real, st: ReelState, ticks: seq<Tick>, i: nat, j: nat)
    requires i <= j < |ticks| && ticks[j].now - start > ReelTimeout
    ensures ReelRun(cfg, start, st, ticks, i).tick <= j
    decreases j - i
  {
    if i < j && Live(ticks[i]) {
      var t := ticks[i];
      var q := st.queue + t.arrived;
      if t.now - start >= cfg.minReelTime {
        var heard := HearsMusic(q, cfg.musicThreshold);
        var music := st.music || heard;
        var last := if heard then t.now else st.lastSound;
        ReelTimeoutBound(cfg, start, ReelState(music, last, []), ticks, i + 1, j);
      } else {
        ReelTimeoutBound(cfg, start, ReelState(st.music, st.lastSound, q), ticks, i + 1, j);
      }
    }
  }

  /** The catch scenario of a reel with `min_reel_time` 5, music threshold 0.05
      and `additional_wait` 1.5: silence until 5 s, volume 0.2 until 7 s, then
      silence; the fish is caught on the iteration at 8.6 s. */
  lemma CaughtAtEightPointSix()
    ensures var cfg := DefaultConfig.(minReelTime := 5.0, musicThreshold := 0.05, additionalWait := 1.5);
      var ticks := [Tick(1.0, true, false, [VolumeUpdate(0.0)]), Tick(5.0, true, false, [VolumeUpdate(0.0)]),
                    Tick(6.0, true, false, [VolumeUpdate(0.2)]), Tick(7.0, true, false, [VolumeUpdate(0.2)]),
                    Tick(8.0, true, false, [VolumeUpdate(0.0)]), Tick(8.6, true, false, [VolumeUpdate(0.0)])];
      Reeling(cfg, 0.0, [], ticks) == ReelEnd(true, 5, true, 7.0)
  {
    var cfg := DefaultConfig.(minReelTime := 5.0, musicThreshold := 0.05, additionalWait := 1.5);
    var ticks := [Tick(1.0, true, false, [VolumeUpdate(0.0)]), Tick(5.0, true, false, [VolumeUpdate(0.0)]),
                  Tick(6.0, true, false, [VolumeUpdate(0.2)]), Tick(7.0, true, false, [VolumeUpdate(0.2)]),
                  Tick(8.0, true, false, [VolumeUpdate(0.0)]), Tick(8.6, true, false, [VolumeUpdate(0.0)])];
    var b1 := [VolumeUpdate(0.0), VolumeUpdate(0.0)];
    assert Volumes(b1) == [0.0, 0.0];
    assert Volumes([VolumeUpdate(0.2)]) == [0.2];
    assert Volumes([VolumeUpdate(0.0)]) == [0.0];
    assert [] + [VolumeUpdate(0.2)] == [VolumeUpdate(0.2)];
    assert [] + [VolumeUpdate(0.0)] == [VolumeUpdate(0.0)];
    assert ReelRun(cfg, 0.0, ReelState(false, 0.0, []), ticks, 0)
        == ReelRun(cfg, 0.0, ReelState(false, 0.0, [VolumeUpdate(0.0)]), ticks, 1);
    assert ReelRun(cfg, 0.0, ReelState(false, 0.0, [VolumeUpdate(0.0)]), ticks, 1)
        == ReelRun(cfg, 0.0, ReelState(false, 0.0, []), ticks, 2);
    assert ReelRun(cfg, 0.0, ReelState(false, 0.0, []), ticks, 2)
        == ReelRun(cfg, 0.0, ReelState(true, 6.0, []), ticks, 3);
    assert ReelRun(cfg, 0.0, ReelState(true, 6.0, []), ticks, 3)
        == ReelRun(cfg, 0.0, ReelState(true, 7.0, []), ticks, 4);
    assert ReelRun(cfg, 0.0, ReelState(true, 7.0, []), ticks, 4)
        == ReelRun(cfg, 0.0, ReelState(true, 7.0, []), ticks, 5);
  }

  /** Extending a batch by one entry. */
  lemma ScanStep(prefix: seq<AudioEvent>, e: AudioEvent, threshold: real)
    ensures LastVolume(prefix + [e]) == if e.VolumeUpdate? then e.value else LastVolume(prefix)
    ensures LoudSound(prefix + [e], threshold) <==>
      LoudSound(prefix, threshold) || (e.SoundDetected? && e.value > threshold)
  {
    VolumesAppend(prefix, [e]);
    assert Volumes([e]) == if e.VolumeUpdate? then [e.value] else [];
    var b := prefix + [e];
    if LoudSound(b, threshold) && !(e.SoundDetected? && e.value > threshold) {
      var k :| 0 <= k < |b| && b[k].SoundDetected? && b[k].value > threshold;
      assert k < |prefix| && prefix[k] == b[k];
    }
    if LoudSound(prefix, threshold) {
      var k :| 0 <= k < |prefix| && prefix[k].SoundDetected? && prefix[k].value > threshold;
      assert b[k] == prefix[k];
    }
    if e.SoundDetected? && e.value > threshold {
      assert b[|prefix|] == e;
    }
  }

  /** The scan of one drained batch (the `for` loop over `events_to_process`):
      `current_volume` ends as the last `volume_update`'s value or 0.0, a
      `sound_detected` louder than the threshold sets `music_playing` and moves
      `last_sound_time` to now, and nothing else changes them. */
  method ScanBatch(batch: seq<AudioEvent>, threshold: real, now: real, music0: bool, last0: real)
    returns (current: real, music: bool, last: real)
    ensures current == LastVolume(batch)
    ensures music == (music0 || LoudSound(batch, threshold))
    ensures last == if LoudSound(batch, threshold) then now else last0
  {
    current, music, last := 0.0, music0, last0;
    var i := 0;
    while i < |batch|
      invariant 0 <= i <= |batch|
      invariant current == LastVolume(batch[..i])
      invariant music == (music0 || LoudSound(batch[..i], threshold))
      invariant last == if LoudSound(batch[..i], threshold) then now else last0
    {
      var e := batch[i];
      assert batch[..i + 1] == batch[..i] + [e];
      ScanStep(batch[..i], e, threshold);
      if e.VolumeUpdate? {
        current := e.value;
      } else if e.value > threshold {
        last := now;
        music := true;
      }
      i := i + 1;
    }
    assert batch[..i] == batch;
  }
}
