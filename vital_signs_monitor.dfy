/** The bedside monitor (components/game/VitalSignsMonitor.tsx): rating a
    vital sign against its normal range, the monitor's critical alarm, the
    scrolling waveform buffer, and the rhythm quiz. Waveform samples come
    from a generator function passed in; the trigonometric generators
    themselves are not part of this model. */
module VitalSignsMonitor {
  import opened Common
  import Medical

  datatype VitalStatus = Normal | Warning | Critical

  /** `getVitalStatus`, with a warning band of 20% of the range's width on
      either side. */
  function VitalStatusOf(value: real, low: real, high: real): (st: VitalStatus)
    ensures var m := (high - low) * 0.2;
      && (st == Critical <==> value < low - m || value > high + m)
      && (low <= high ==> (st == Normal <==> low <= value <= high))
      && (low <= high ==> (st == Warning <==> (low - m <= value < low || high < value <= high + m)))
  {
    var warningMargin := (high - low) * 0.2;
    if value < low - warningMargin || value > high + warningMargin then Critical
    else if value < low || value > high then Warning
    else Normal
  }

  /** The alarm's test: any of heart rate [60, 100], systolic [90, 140],
      respiratory rate [12, 20], SpO2 [95, 100] or temperature [97.8, 99.5]
      critical. */
  function HasCritical(v: Medical.VitalSigns): (b: bool)
    ensures b <==> (
      || v.heartRate < 52.0 || v.heartRate > 108.0
      || v.systolic < 80.0 || v.systolic > 150.0
      || v.respiratoryRate < 10.4 || v.respiratoryRate > 21.6
      || v.oxygenSaturation < 94.0 || v.oxygenSaturation > 101.0
      || v.temperature < 97.46 || v.temperature > 99.84)
  {
    var statuses := [
      VitalStatusOf(v.heartRate, 60.0, 100.0),
      VitalStatusOf(v.systolic, 90.0, 140.0),
      VitalStatusOf(v.respiratoryRate, 12.0, 20.0),
      VitalStatusOf(v.oxygenSaturation, 95.0, 100.0),
      VitalStatusOf(v.temperature, 97.8, 99.5)];
    Critical in statuses
  }

  /** Mrs Martinez's systolic 142 is only a warning, so her monitor does not
      alarm. */
  lemma MartinezNotCritical()
    ensures VitalStatusOf(Medical.MartinezVitals.systolic, 90.0, 140.0) == Warning
    ensures !HasCritical(Medical.MartinezVitals)
  {
  }

  // ------------------------------------------------------------------
  // Waveform buffer
  // ------------------------------------------------------------------

  /** `Math.ceil`. */
  function Ceil(x: real): (n: int)
    ensures x <= n as real < x + 1.0
  {
    -((-x).Floor)
  }

  /** One new sample: `shift()` (nothing on an empty buffer), then `push`. */
  function ShiftPush(data: seq<real>, p: real): (r: seq<real>)
    ensures data != [] ==> |r| == |data| && r == data[1..] + [p]
    ensures data == [] ==> r == [p]
  {
    (if data == [] then [] else data[1..]) + [p]
  }

  /** The samples pushed one after another. */
  function Advance(data: seq<real>, points: seq<real>): seq<real> {
    if points == [] then data else ShiftPush(Advance(data, points[..|points| - 1]), points[|points| - 1])
  }

  /** A non-empty buffer keeps its length and holds the latest samples: the
      old contents followed by the new samples, cut to the old length from
      the end. */
  lemma {:induction false} AdvanceKeepsLatest(data: seq<real>, points: seq<real>)
    requires data != []
    ensures |Advance(data, points)| == |data|
    ensures Advance(data, points) == (data + points)[|points|..]
    decreases |points|
  {
    if points != [] {
      var n := |points| - 1;
      AdvanceKeepsLatest(data, points[..n]);
      var prev := Advance(data, points[..n]);
      assert prev == (data + points[..n])[n..];
      assert (data + points)[|points|..] == (data + points[..n])[n..][1..] + [points[n]];
    }
  }

  /** A buffer that starts empty (a canvas of width 0) does not keep its
      length: after the first sample it holds exactly one, the latest. */
  lemma {:induction false} EmptyBufferHoldsOne(points: seq<real>)
    requires points != []
    ensures Advance([], points) == [points[|points| - 1]]
    decreases |points|
  {
    var n := |points| - 1;
    if n > 0 {
      EmptyBufferHoldsOne(points[..n]);
    }
  }

  /** The samples of one frame: `newPoints` of them, at `time + i / speed`
      (no samples at all when the speed is zero, as `ceil(0)` is 0). */
  function FrameSamples(generate: real -> real, time: real, speed: real, newPoints: int): (s: seq<real>)
    ensures |s| == if speed == 0.0 then 0 else Max(0, newPoints)
  {
    if newPoints <= 0 || speed == 0.0 then []
    else seq(newPoints, i requires 0 <= i < newPoints => generate(time + i as real / speed))
  }

  /** The seconds since the last frame; the first frame (no last frame yet)
      counts as none. */
  function Elapsed(timestamp: real, lastFrame: real): real {
    (timestamp - (if lastFrame == 0.0 then timestamp else lastFrame)) / 1000.0
  }

  /** `Math.ceil(speed * deltaTime)`: none at all when the speed is zero. */
  function NewPoints(speed: real, delta: real): (n: int)
    ensures speed == 0.0 ==> n == 0
    ensures speed * delta <= n as real < speed * delta + 1.0
  {
    Ceil(speed * delta)
  }

  /** The data behind one waveform canvas. */
  class WaveformBuffer {
    var data: seq<real>
    var time: real
    var lastFrame: real
    const speed: real

    /** `new Array(Math.ceil(width)).fill(0)`; a width in (-1, 0) rounds to
        -0 and gives an empty buffer, while a width of -1 or less makes the
        array constructor throw. */
    constructor (width: real, speed: real)
      requires width > -1.0
      ensures |data| == Ceil(width) && forall i :: 0 <= i < |data| ==> data[i] == 0.0
      ensures time == 0.0 && lastFrame == 0.0 && this.speed == speed
    {
      data := seq(Ceil(width), _ => 0.0);
      time := 0.0;
      lastFrame := 0.0;
      this.speed := speed;
    }

    /** `animate(timestamp)`: the first frame only records its timestamp;
        each frame advances the clock by the elapsed seconds and shifts in
        `ceil(speed * elapsed)` new samples. */
    method Animate(timestamp: real, generate: real -> real)
      modifies this
      ensures lastFrame == timestamp && time == old(time) + Elapsed(timestamp, old(lastFrame))
      ensures data == Advance(old(data), FrameSamples(generate, time, speed, NewPoints(speed, Elapsed(timestamp, old(lastFrame)))))
    {
      var deltaTime := Elapsed(timestamp, lastFrame);
      lastFrame := timestamp;
      time := time + deltaTime;
      ShiftIn(generate, NewPoints(speed, deltaTime));
    }

    /** The frame's `for` loop: `newPoints` times a `shift()` and a `push` of
        the sample at `time + i / speed`. */
    method ShiftIn(generate: real -> real, newPoints: int)
      requires speed == 0.0 ==> newPoints <= 0
      modifies this
      ensures data == Advance(old(data), FrameSamples(generate, time, speed, newPoints))
      ensures time == old(time) && lastFrame == old(lastFrame)
    {
      ghost var samples := FrameSamples(generate, time, speed, newPoints);
      var buffer := data;
      var i := 0;
      while i < newPoints
        invariant 0 <= i <= Max(0, newPoints) && |samples| == Max(0, newPoints)
        invariant buffer == Advance(data, samples[..i])
      {
        assert samples[..i + 1][..i] == samples[..i];
        assert samples[i] == generate(time + i as real / speed);
        buffer := ShiftPush(buffer, generate(time + i as real / speed));
        i := i + 1;
      }
      assert samples[..|samples|] == samples;
      data := buffer;
    }
  }

  // ------------------------------------------------------------------
  // Rhythm quiz
  // ------------------------------------------------------------------

  /** The rhythm quiz: only the first guess counts. */
  class RhythmQuiz {
    var answered: bool
    var selected: Option<string>
    var isCorrect: bool

    constructor ()
      ensures !answered && selected.None? && !isCorrect
    {
      answered, selected, isCorrect := false, None, false;
    }

    /** `handleGuess`: a guess after the first changes nothing and reports
        nothing; the first is recorded and reported to `onAnswer`, correct
        exactly when it names the rhythm shown. */
    method HandleGuess(id: string, correctRhythm: string) returns (reported: Option<bool>)
      modifies this
      ensures old(answered) ==> reported.None? && answered && selected == old(selected) && isCorrect == old(isCorrect)
      ensures !old(answered) ==>
        answered && selected == Some(id) && isCorrect == (id == correctRhythm) && reported == Some(id == correctRhythm)
    {
      if answered {
        return None;
      }
      var correct := id == correctRhythm;
      answered := true;
      selected := Some(id);
      isCorrect := correct;
      reported := Some(correct);
    }
  }
}
