/** The shared vocabulary of the fishing bot: the entries of the audio queue,
    the synthetic key events, the session tunables and what one polling
    iteration of the state machine observes. */
module Events {

  /** An entry of the audio queue: `('volume_update', v)` or `('sound_detected', v)`. */
  datatype AudioEvent = VolumeUpdate(value: real) | SoundDetected(value: real)

  /** A synthetic event of the fishing key (E). */
  datatype KeyEvent = KeyDown | KeyUp

  /** The tunables of a session: times in seconds, thresholds in normalised volume. */
  datatype Config = Config(
    castDuration: real,
    minReelTime: real,
    audioThreshold: real,
    musicThreshold: real,
    additionalWait: real,
    cooldownAfterCast: real,
    spikeCooldown: real,
    smoothingAlpha: real)

  /** The defaults the bot starts with before any settings are loaded. */
  const DefaultConfig := Config(0.5, 5.0, 0.05, 0.01, 1.5, 5.0, 0.5, 0.3)

  /** What one iteration of a polling loop of the state machine observes: the
      clock, the shared `running` and `paused` flags, and the net change the
      other threads made to the queue since the previous iteration: what the
      sampler put on it, less what the display consumer took off meanwhile.
      Before the reel starts draining, the display can take entries queued at
      an earlier poll; there `arrived` holds only what survives to the first
      draining poll. */
  datatype Tick = Tick(now: real, running: bool, paused: bool, arrived: seq<AudioEvent>)

  /** The guard `self.running and not self.paused` of the polling loops. */
  predicate Live(t: Tick) {
    t.running && !t.paused
  }

  predicate HasSound(batch: seq<AudioEvent>) {
    exists i :: 0 <= i < |batch| && batch[i].SoundDetected?
  }

  /** The values of the `volume_update` entries of a queue, in queue order. */
  function Volumes(q: seq<AudioEvent>): seq<real> {
    if q == [] then []
    else (if q[0].VolumeUpdate? then [q[0].value] else []) + Volumes(q[1..])
  }

  /** The `sound_detected` entries of a queue, as a multiset. */
  function Sounds(q: seq<AudioEvent>): multiset<AudioEvent> {
    if q == [] then multiset{}
    else (if q[0].SoundDetected? then multiset{q[0]} else multiset{}) + Sounds(q[1..])
  }

  lemma Assoc<T>(a: seq<T>, b: seq<T>, c: seq<T>)
    ensures (a + b) + c == a + (b + c)
  {
  }

  lemma {:induction false} VolumesAppend(a: seq<AudioEvent>, b: seq<AudioEvent>)
    ensures Volumes(a + b) == Volumes(a) + Volumes(b)
  {
    if a != [] {
      assert (a + b)[1..] == a[1..] + b;
      VolumesAppend(a[1..], b);
    } else {
      assert a + b == b;
    }
  }

  lemma {:induction false} SoundsAppend(a: seq<AudioEvent>, b: seq<AudioEvent>)
    ensures Sounds(a + b) == Sounds(a) + Sounds(b)
  {
    if a != [] {
      assert (a + b)[1..] == a[1..] + b;
      SoundsAppend(a[1..], b);
    } else {
      assert a + b == b;
    }
  }

  /** A queue holds a `sound_detected` exactly when its multiset of sounds is not empty. */
  lemma {:induction false} SoundsNonEmpty(q: seq<AudioEvent>)
    ensures HasSound(q) <==> Sounds(q) != multiset{}
  {
    if q != [] {
      SoundsNonEmpty(q[1..]);
      if q[0].SoundDetected? {
        assert q[0] in Sounds(q);
      } else if HasSound(q) {
        var i :| 0 <= i < |q| && q[i].SoundDetected?;
        assert q[1..][i - 1].SoundDetected?;
      } else {
        assert forall i :: 0 <= i < |q[1..]| ==> q[1..][i] == q[i + 1];
      }
    }
  }

  /** The key trace is a run of complete presses: every key-down is followed by
      its key-up before the next key-down, and the key is up at the end. */
  predicate KeysMatched(keys: seq<KeyEvent>)
    decreases |keys|
  {
    keys == [] || (|keys| >= 2 && keys[0] == KeyDown && keys[1] == KeyUp && KeysMatched(keys[2..]))
  }

  lemma {:induction false} KeysMatchedAppend(a: seq<KeyEvent>, b: seq<KeyEvent>)
    requires KeysMatched(a) && KeysMatched(b)
    ensures KeysMatched(a + b)
  {
    if a != [] {
      assert (a + b)[2..] == a[2..] + b;
      KeysMatchedAppend(a[2..], b);
    } else {
      assert a + b == b;
    }
  }

  /** A matched trace issues as many key-ups as key-downs and ends with the key released. */
  lemma {:induction false} KeysMatchedBalanced(keys: seq<KeyEvent>)
    requires KeysMatched(keys)
    ensures multiset(keys)[KeyDown] == multiset(keys)[KeyUp]
    ensures keys != [] ==> keys[|keys| - 1] == KeyUp
  {
    if keys != [] {
      KeysMatchedBalanced(keys[2..]);
      assert keys == [KeyDown, KeyUp] + keys[2..];
      assert multiset(keys) == multiset{KeyDown, KeyUp} + multiset(keys[2..]);
    }
  }
}
