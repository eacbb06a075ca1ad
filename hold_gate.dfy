/**
 * The per-connection hold-confirmation gate of the real-time loop in server.py:
 * the two loop variables `last_gesture` and `gesture_start_time`, one step per
 * classified frame, and what any run of frames can and cannot make it do.
 */
module HoldGate {
  import opened Options
  import opened GestureDetector

  /** `last_gesture` and `gesture_start_time` of one connection. */
  datatype Gate = Gate(lastGesture: Option<Gesture>, startTime: Option<int>)

  /** The gate of a freshly opened connection, and after any non-command gesture. */
  const Idle: Gate := Gate(None, None)

  /** The gestures that switch the current device once held: FIST (OFF) and OPEN PALM (ON). */
  predicate IsCommand(g: Gesture) {
    g == Fist || g == OpenPalm
  }

  /** Both variables are set together, and only while a command gesture is being held. */
  predicate Consistent(gate: Gate) {
    && (gate.lastGesture.Some? <==> gate.startTime.Some?)
    && (gate.lastGesture.Some? ==> IsCommand(gate.lastGesture.value))
  }

  /** What one frame does to the gate and reports. */
  datatype Outcome = Outcome(next: Gate, holdDuration: Option<int>, fired: bool)

  /**
   * One frame showing gesture `g` at time `now`, against threshold `holdTime`.
   * A command gesture seen again reports how long it has been held and fires once
   * that reaches the threshold, restarting the timer; a new command gesture only
   * starts the timer; any other gesture clears the gate.
   */
  function Step(gate: Gate, g: Gesture, now: int, holdTime: int): (o: Outcome)
    requires Consistent(gate)
    ensures Consistent(o.next)
    ensures o.fired ==> IsCommand(g) && gate.lastGesture == Some(g) && now - gate.startTime.value >= holdTime
    ensures o.fired ==> o.next == Gate(Some(g), Some(now))
    ensures o.next.lastGesture.Some? ==> o.next.lastGesture == Some(g)
    ensures IsCommand(g) && gate.lastGesture == Some(g) ==> o.holdDuration == Some(now - gate.startTime.value)
    ensures IsCommand(g) && gate.lastGesture != Some(g) ==> o == Outcome(Gate(Some(g), Some(now)), None, false)
    ensures IsCommand(g) && gate.lastGesture == Some(g) && !o.fired ==> o.next == gate
    ensures !IsCommand(g) ==> o.next == Idle && o.holdDuration == None && !o.fired
  {
    if IsCommand(g) then
      if gate.lastGesture == Some(g) then
        var holdDuration := now - gate.startTime.value;
        if holdDuration >= holdTime then Outcome(Gate(Some(g), Some(now)), Some(holdDuration), true)
        else Outcome(gate, Some(holdDuration), false)
      else Outcome(Gate(Some(g), Some(now)), None, false)
    else Outcome(Idle, None, false)
  }

  /** A command gesture fires exactly when it was already being held for at least the threshold. */
  lemma StepFiresIff(gate: Gate, g: Gesture, now: int, holdTime: int)
    requires Consistent(gate)
    ensures Step(gate, g, now, holdTime).fired <==>
              IsCommand(g) && gate.lastGesture == Some(g) && now - gate.startTime.value >= holdTime
  {
  }

  /**
   * One classified frame: the gesture seen, the time it was seen, and the hold
   * threshold in force at that frame (the setting is read afresh on every frame).
   */
  datatype Observation = Observation(gesture: Gesture, at: int, holdTime: int)

  /** The gate after a connection has seen `frames`, starting idle. */
  function GateAfter(frames: seq<Observation>): (gate: Gate)
    ensures Consistent(gate)
  {
    if frames == [] then Idle
    else
      var last := frames[|frames| - 1];
      Step(GateAfter(frames[..|frames| - 1]), last.gesture, last.at, last.holdTime).next
  }

  /** Frame `k` of `frames` fires a command. */
  predicate FiresAt(frames: seq<Observation>, k: nat)
    requires k < |frames|
  {
    Step(GateAfter(frames[..k]), frames[k].gesture, frames[k].at, frames[k].holdTime).fired
  }

  /** Frame times never go backwards. */
  predicate Chronological(frames: seq<Observation>) {
    forall i, j :: 0 <= i <= j < |frames| ==> frames[i].at <= frames[j].at
  }

  /** Frames `j` up to but excluding `k` all show gesture `g`. */
  predicate UnbrokenRun(frames: seq<Observation>, g: Gesture, j: nat, k: nat)
    requires j <= k <= |frames|
  {
    forall m :: j <= m < k ==> frames[m].gesture == g
  }

  /**
   * While the gate holds gesture g since time s, some earlier frame j was seen at
   * exactly time s and every frame since then has shown g.
   */
  lemma {:induction false} HoldingHasWitness(frames: seq<Observation>, k: nat)
    requires k <= |frames|
    ensures var gate := GateAfter(frames[..k]);
            gate.lastGesture.Some? ==>
              exists j :: 0 <= j < k && frames[j].at == gate.startTime.value
                          && UnbrokenRun(frames, gate.lastGesture.value, j, k)
  {
    if k > 0 {
      HoldingHasWitness(frames, k - 1);
      var before := GateAfter(frames[..k - 1]);
      assert frames[..k][..k - 1] == frames[..k - 1];
      var o := Step(before, frames[k - 1].gesture, frames[k - 1].at, frames[k - 1].holdTime);
      assert GateAfter(frames[..k]) == o.next;
      if o.next.lastGesture.Some? {
        if o.next.startTime == Some(frames[k - 1].at) {
          assert UnbrokenRun(frames, o.next.lastGesture.value, k - 1, k);
        } else {
          assert o.next == before;
          var j :| 0 <= j < k - 1 && frames[j].at == before.startTime.value
                   && UnbrokenRun(frames, before.lastGesture.value, j, k - 1);
          assert UnbrokenRun(frames, o.next.lastGesture.value, j, k);
        }
      }
    }
  }

  /**
   * Debounce: a command fires only after an unbroken run of the same gesture,
   * begun on an earlier frame, spanning at least the threshold in force when it fires.
   */
  lemma FireNeedsUnbrokenHold(frames: seq<Observation>, k: nat)
    requires k < |frames| && FiresAt(frames, k)
    ensures exists j :: 0 <= j < k && UnbrokenRun(frames, frames[k].gesture, j, k + 1)
                        && frames[k].at - frames[j].at >= frames[k].holdTime
  {
    HoldingHasWitness(frames, k);
    var gate := GateAfter(frames[..k]);
    var j :| 0 <= j < k && frames[j].at == gate.startTime.value
             && UnbrokenRun(frames, gate.lastGesture.value, j, k);
    assert UnbrokenRun(frames, frames[k].gesture, j, k + 1);
  }

  /**
   * A hold of command gesture g that began at frame j and has not fired since is
   * remembered by the gate with frame j's time as its start.
   */
  lemma {:induction false} HoldStartsAt(frames: seq<Observation>, g: Gesture, j: nat, m: nat)
    requires IsCommand(g) && j < m <= |frames|
    requires j == 0 || frames[j - 1].gesture != g
    requires UnbrokenRun(frames, g, j, m)
    requires forall n :: j <= n < m ==> !FiresAt(frames, n)
    ensures GateAfter(frames[..m]) == Gate(Some(g), Some(frames[j].at))
  {
    assert frames[..m][..m - 1] == frames[..m - 1];
    if m == j + 1 {
      if j > 0 {
        assert frames[..j][..j - 1] == frames[..j - 1];
      }
    } else {
      HoldStartsAt(frames, g, j, m - 1);
      assert frames[m - 1].gesture == g && !FiresAt(frames, m - 1);
    }
  }

  /**
   * Confirmation: a hold of command gesture g that began at frame j, continued
   * unbroken and has not fired yet fires on frame k once frame k is at least the
   * threshold in force after frame j.
   */
  lemma FiresOnReachingThreshold(frames: seq<Observation>, g: Gesture, j: nat, k: nat)
    requires IsCommand(g) && j < k < |frames|
    requires j == 0 || frames[j - 1].gesture != g
    requires UnbrokenRun(frames, g, j, k + 1)
    requires forall n :: j <= n < k ==> !FiresAt(frames, n)
    requires frames[k].at - frames[j].at >= frames[k].holdTime
    ensures FiresAt(frames, k)
  {
    HoldStartsAt(frames, g, j, k);
  }

  /** After frame i fires, the timer never restarts earlier than frame i's time. */
  lemma {:induction false} StartAfterFire(frames: seq<Observation>, i: nat, m: nat)
    requires Chronological(frames)
    requires i < m <= |frames| && FiresAt(frames, i)
    ensures var gate := GateAfter(frames[..m]);
            gate.startTime.Some? ==> gate.startTime.value >= frames[i].at
  {
    assert frames[..m][..m - 1] == frames[..m - 1];
    if m == i + 1 {
    } else {
      StartAfterFire(frames, i, m - 1);
    }
  }

  /**
   * Two fires of one connection are always at least apart by the threshold in
   * force at the second one.
   */
  lemma FiresSpaced(frames: seq<Observation>, i: nat, k: nat)
    requires Chronological(frames)
    requires i < k < |frames| && FiresAt(frames, i) && FiresAt(frames, k)
    ensures frames[k].at - frames[i].at >= frames[k].holdTime
  {
    StartAfterFire(frames, i, k);
  }

  /**
   * Lowering the threshold takes effect on the next frame: a fist confirmed at 1500
   * under a 1500 threshold fires again at 1600 once the threshold is 50.
   */
  lemma LoweredThresholdApplies()
    ensures var frames := [Observation(Fist, 0, 1500), Observation(Fist, 1500, 1500), Observation(Fist, 1600, 50)];
            && !FiresAt(frames, 0) && FiresAt(frames, 1) && FiresAt(frames, 2)
  {
    var frames := [Observation(Fist, 0, 1500), Observation(Fist, 1500, 1500), Observation(Fist, 1600, 50)];
    assert GateAfter(frames[..1]) == Gate(Some(Fist), Some(0));
    assert frames[..2][..1] == frames[..1];
    assert GateAfter(frames[..2]) == Gate(Some(Fist), Some(1500));
  }

  /** A fist held from time 0 and sampled every 750 units fires at 1500 and at 3000 only. */
  lemma SustainedFistFiresEveryThreshold()
    ensures var frames := [Observation(Fist, 0, 1500), Observation(Fist, 750, 1500), Observation(Fist, 1500, 1500),
                           Observation(Fist, 2250, 1500), Observation(Fist, 3000, 1500)];
            && !FiresAt(frames, 0) && !FiresAt(frames, 1) && FiresAt(frames, 2)
            && !FiresAt(frames, 3) && FiresAt(frames, 4)
  {
    var frames := [Observation(Fist, 0, 1500), Observation(Fist, 750, 1500), Observation(Fist, 1500, 1500),
                   Observation(Fist, 2250, 1500), Observation(Fist, 3000, 1500)];
    assert GateAfter(frames[..1]) == Gate(Some(Fist), Some(0));
    assert frames[..2][..1] == frames[..1];
    assert GateAfter(frames[..2]) == Gate(Some(Fist), Some(0));
    assert frames[..3][..2] == frames[..2];
    assert GateAfter(frames[..3]) == Gate(Some(Fist), Some(1500));
    assert frames[..4][..3] == frames[..3];
    assert GateAfter(frames[..4]) == Gate(Some(Fist), Some(1500));
  }

  /** One open-palm frame in the middle of a fist hold restarts it: the next fist fires only a full threshold later. */
  lemma InterruptedHoldRestarts()
    ensures var frames := [Observation(Fist, 0, 1500), Observation(OpenPalm, 1000, 1500), Observation(Fist, 1500, 1500),
                           Observation(Fist, 2500, 1500), Observation(Fist, 3000, 1500)];
            && !FiresAt(frames, 2) && !FiresAt(frames, 3) && FiresAt(frames, 4)
  {
    var frames := [Observation(Fist, 0, 1500), Observation(OpenPalm, 1000, 1500), Observation(Fist, 1500, 1500),
                   Observation(Fist, 2500, 1500), Observation(Fist, 3000, 1500)];
    assert GateAfter(frames[..1]) == Gate(Some(Fist), Some(0));
    assert frames[..2][..1] == frames[..1];
    assert GateAfter(frames[..2]) == Gate(Some(OpenPalm), Some(1000));
    assert frames[..3][..2] == frames[..2];
    assert GateAfter(frames[..3]) == Gate(Some(Fist), Some(1500));
    assert frames[..4][..3] == frames[..3];
    assert GateAfter(frames[..4]) == Gate(Some(Fist), Some(1500));
  }
}
