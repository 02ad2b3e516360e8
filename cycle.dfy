/** The outer fishing cycle: cast, wait for a bite, reel, and the rules for
    skipping, retrying and going on. */
module Cycle {
  import opened Events
  import opened BiteWait
  import opened Reel

  /** What one iteration of the outer loop observes: the two flags, whether the
      game window could be brought to the front for the cast and for the reel,
      and the clock readings and polling iterations of the wait and of the reel. */
  datatype CycleInput = CycleInput(
    running: bool,
    paused: bool,
    castActivates: bool,
    biteStart: real,
    biteTicks: seq<Tick>,
    reelActivates: bool,
    reelStart: real,
    reelTicks: seq<Tick>)

  /** How one iteration of the outer loop ended. `Missed(left)` records what
      the wait left on the queue; `Reeled(pressed, caught)` records whether the
      reel could press the key and whether it caught a fish. */
  datatype CycleResult = Skipped | CastFailed | Missed(left: seq<AudioEvent>) | Reeled(pressed: bool, caught: bool)

  /** One iteration: a pause skips it; a failed cast retries; a wait without a
      bite recasts; otherwise the reel runs on the queue the wait left empty. */
  function CycleStep(cfg: Config, c: CycleInput): CycleResult {
    if c.paused then Skipped
    else if !c.castActivates then CastFailed
    else if !BiteFound(cfg, c.biteStart, c.biteTicks) then Missed(WaitLeftover(cfg, c.biteStart, c.biteTicks))
    else if !c.reelActivates then Reeled(false, false)
    else Reeled(true, Reeling(cfg, c.reelStart, [], c.reelTicks).caught)
  }

  /** The outer loop from iteration i on, up to the first iteration with `running` false. */
  function CyclesFrom(cfg: Config, inputs: seq<CycleInput>, i: nat): seq<CycleResult>
    requires i <= |inputs|
    decreases |inputs| - i
  {
    if i == |inputs| || !inputs[i].running then []
    else [CycleStep(cfg, inputs[i])] + CyclesFrom(cfg, inputs, i + 1)
  }

  /** The key events of one iteration: a press for the cast, and one for the reel. */
  function CycleKeys(r: CycleResult): seq<KeyEvent> {
    match r
    case Skipped => []
    case CastFailed => []
    case Missed(_) => [KeyDown, KeyUp]
    case Reeled(pressed, _) => [KeyDown, KeyUp] + (if pressed then [KeyDown, KeyUp] else [])
  }

  function SessionKeys(rs: seq<CycleResult>): seq<KeyEvent> {
    if rs == [] then [] else SessionKeys(rs[..|rs| - 1]) + CycleKeys(rs[|rs| - 1])
  }

  /** `cycle_count`: the iterations that were not skipped for a pause. */
  function Started(rs: seq<CycleResult>): nat {
    if rs == [] then 0 else Started(rs[..|rs| - 1]) + (if rs[|rs| - 1].Skipped? then 0 else 1)
  }

  function Catches(rs: seq<CycleResult>): nat {
    if rs == [] then 0 else Catches(rs[..|rs| - 1]) + (if rs[|rs| - 1] == Reeled(true, true) then 1 else 0)
  }

  /** The queue after one iteration: a pause or a failed cast leaves it alone,
      a wait without a bite leaves what it left, and after a bite the wait and
      then a reel that pressed the key clear it. */
  function QueueAfterStep(q: seq<AudioEvent>, r: CycleResult): seq<AudioEvent> {
    match r
    case Skipped => q
    case CastFailed => q
    case Missed(left) => left
    case Reeled(_, _) => []
  }

  function QueueAfter(q: seq<AudioEvent>, rs: seq<CycleResult>): seq<AudioEvent> {
    if rs == [] then q else QueueAfterStep(QueueAfter(q, rs[..|rs| - 1]), rs[|rs| - 1])
  }

  /** The results are one per iteration up to the first stop, each given by `CycleStep`. */
  lemma {:induction false} CyclesPointwise(cfg: Config, inputs: seq<CycleInput>, i: nat)
    requires i <= |inputs|
    ensures var rs := CyclesFrom(cfg, inputs, i);
      && i + |rs| <= |inputs|
      && (forall j :: i <= j < i + |rs| ==> inputs[j].running && rs[j - i] == CycleStep(cfg, inputs[j]))
      && (i + |rs| < |inputs| ==> !inputs[i + |rs|].running)
    decreases |inputs| - i
  {
    if i < |inputs| && inputs[i].running {
      CyclesPointwise(cfg, inputs, i + 1);
      var rest := CyclesFrom(cfg, inputs, i + 1);
      var rs := [CycleStep(cfg, inputs[i])] + rest;
      assert CyclesFrom(cfg, inputs, i) == rs;
      forall j | i <= j < i + |rs| ensures inputs[j].running && rs[j - i] == CycleStep(cfg, inputs[j]) {
        if j > i {
          assert rs[j - i] == rest[j - (i + 1)];
        }
      }
    }
  }

  /** Every key-down of a session is matched by exactly one key-up, and the key
      is released at the end of the session. */
  lemma {:induction false} SessionKeysMatched(rs: seq<CycleResult>)
    ensures KeysMatched(SessionKeys(rs))
    ensures multiset(SessionKeys(rs))[KeyDown] == multiset(SessionKeys(rs))[KeyUp]
    decreases |rs|
  {
    if rs != [] {
      SessionKeysMatched(rs[..|rs| - 1]);
      var k := CycleKeys(rs[|rs| - 1]);
      assert KeysMatched([KeyDown, KeyUp]) by {
        assert [KeyDown, KeyUp][2..] == [];
      }
      if rs[|rs| - 1].Reeled? && rs[|rs| - 1].pressed {
        KeysMatchedAppend([KeyDown, KeyUp], [KeyDown, KeyUp]);
      }
      if !(rs[|rs| - 1].Missed? || rs[|rs| - 1].Reeled?) {
        assert k == [];
      } else if rs[|rs| - 1].Reeled? && !rs[|rs| - 1].pressed {
        assert k == [KeyDown, KeyUp];
      }
      KeysMatchedAppend(SessionKeys(rs[..|rs| - 1]), k);
    }
    KeysMatchedBalanced(SessionKeys(rs));
  }

  /** The reel runs only in an iteration that was not paused, whose cast
      succeeded and whose wait found a bite; a catch needs the key pressed and
      the reel's own catch conditions. */
  lemma ReelOnlyAfterBite(cfg: Config, inputs: seq<CycleInput>, j: nat)
    requires j < |CyclesFrom(cfg, inputs, 0)| && CyclesFrom(cfg, inputs, 0)[j].Reeled?
    ensures j < |inputs| && inputs[j].running && !inputs[j].paused && inputs[j].castActivates
    ensures BiteFound(cfg, inputs[j].biteStart, inputs[j].biteTicks)
    ensures CyclesFrom(cfg, inputs, 0)[j].caught ==>
      inputs[j].reelActivates && Reeling(cfg, inputs[j].reelStart, [], inputs[j].reelTicks).caught
  {
    CyclesPointwise(cfg, inputs, 0);
  }

  /** An iteration that missed leaves entries on the queue only when its wait
      ended on a stop or pause, and they are what arrived for that poll. */
  lemma MissedLeavesStopArrivals(cfg: Config, inputs: seq<CycleInput>, j: nat)
    requires j < |CyclesFrom(cfg, inputs, 0)| && CyclesFrom(cfg, inputs, 0)[j].Missed?
    requires CyclesFrom(cfg, inputs, 0)[j].left != []
    ensures j < |inputs| && inputs[j].running && !inputs[j].paused && inputs[j].castActivates
    ensures var ticks := inputs[j].biteTicks;
      exists k :: 0 <= k < |ticks| && !Live(ticks[k])
        && CyclesFrom(cfg, inputs, 0)[j].left == ticks[k].arrived
        && forall i :: 0 <= i < k ==> WaitContinues(cfg, inputs[j].biteStart, ticks[i])
  {
    CyclesPointwise(cfg, inputs, 0);
    LeftoverOnlyOnStop(cfg, inputs[j].biteStart, inputs[j].biteTicks);
  }

  /** Catches never exceed the started cycles, which never exceed the iterations. */
  lemma {:induction false} CatchesBounded(rs: seq<CycleResult>)
    ensures Catches(rs) <= Started(rs) <= |rs|
    decreases |rs|
  {
    if rs != [] {
      CatchesBounded(rs[..|rs| - 1]);
    }
  }
}
