/** The per-frame state machine of the analysis: calibration is latched once, every
    detection is recorded in pixels (and in metres once calibrated), and calibrated
    detections drive the Kalman filter. */
module Tracking {
  import opened Wrappers
  import opened Matrices
  import opened Kalman
  import opened Pixels
  import Detection
  import Calibration

  /** The smallest time step handed to the filter's prediction. */
  const MinDt: real := 1e-3
  /** The stride of the per-frame detection scan. */
  const DetectStride: nat := 2

  /** What one frame contributes: its time stamp (already scaled by the slow-motion factor),
      what calibration finds on it, and what detection finds on it. */
  datatype Frame = Frame(t: real, calibration: Option<real>, blob: Option<Detection.Blob>)

  /** A detection in pixels, and in metres when a scale is known (None stands for NaN). */
  datatype RawSample = RawSample(t: real, xPx: real, yPx: real, xM: Option<real>, yM: Option<real>)

  /** A filtered state: position in metres and velocity in metres per second. */
  datatype FiltSample = FiltSample(t: real, x: real, y: real, vx: real, vy: real)

  /** Everything the frame loop carries from one frame to the next. */
  datatype RunState = RunState(
    pxToMeter: Option<real>,
    raw: seq<RawSample>,
    filt: seq<FiltSample>,
    initialized: bool,
    prevT: real,
    x: Matrix,
    P: Matrix)

  /** The filter shapes a run state needs. */
  predicate Shaped(s: RunState)
  {
    IsMatrix(s.x, 4, 1) && IsMatrix(s.P, 4, 4)
  }

  /** A JavaScript truthiness test on an optional number: null and 0 are false. */
  predicate Truthy(o: Option<real>)
  {
    o.Some? && o.value != 0.0
  }

  /** The scale after a frame: kept once set, else taken from the frame when truthy. */
  function Latch(current: Option<real>, found: Option<real>): (p: Option<real>)
    ensures current.Some? ==> p == current
    ensures current.None? ==> (p.Some? <==> Truthy(found))
    ensures p.Some? ==> p == current || p == found
  {
    if current.Some? then current
    else if Truthy(found) then found
    else None
  }

  /** The prediction step since the previous filtered frame, clamped from below. */
  function StepDt(t: real, prevT: real): (dt: real)
    ensures dt >= MinDt && dt >= t - prevT
    ensures dt == MinDt || dt == t - prevT
  {
    if MinDt >= t - prevT then MinDt else t - prevT
  }

  /** A pixel coordinate converted to metres. */
  function Metres(px: real, scale: real): real
  {
    px * scale
  }

  /** The raw sample recorded for a blob: metres only once a scale is known. */
  function RawOf(t: real, b: Detection.Blob, scale: Option<real>): (r: RawSample)
    ensures r.t == t && r.xPx == b.x && r.yPx == b.y
    ensures (r.xM.None? <==> scale.None?) && (r.yM.None? <==> scale.None?)
    ensures scale.Some? ==> r.xM.value == b.x * scale.value && r.yM.value == b.y * scale.value
  {
    RawSample(t, b.x, b.y,
              if scale.Some? then Some(Metres(b.x, scale.value)) else None,
              if scale.Some? then Some(Metres(b.y, scale.value)) else None)
  }

  /** The filter's state and covariance after a calibrated measurement z = (xm, ym) at
      time t: seeded from z on the first one, else predicted over the clamped step and
      updated with z. */
  function FilterX(s: RunState, t: real, xm: real, ym: real): (x: Matrix)
    requires Shaped(s)
    ensures IsMatrix(x, 4, 1)
  {
    if !s.initialized then StateVector(xm, 0.0, ym, 0.0)
    else
      var dt := StepDt(t, s.prevT);
      UpdatedState(PredictedState(s.x, dt), PredictedCov(s.P, dt), [[xm], [ym]])
  }

  function FilterP(s: RunState, t: real): (P: Matrix)
    requires Shaped(s)
    ensures IsMatrix(P, 4, 4)
  {
    if !s.initialized then Identity(4, SeedCov)
    else UpdatedCov(PredictedCov(s.P, StepDt(t, s.prevT)))
  }

  /** The run state after a calibrated measurement (xm, ym) at time t: the filter moves on
      and its new state is recorded. */
  function TrackState(s: RunState, t: real, xm: real, ym: real): (s': RunState)
    requires Shaped(s)
    ensures Shaped(s')
  {
    var x := FilterX(s, t, xm, ym);
    s.(filt := s.filt + [FiltSample(t, x[0][0], x[2][0], x[1][0], x[3][0])], initialized := true, prevT := t,
       x := x, P := FilterP(s, t))
  }

  /** The run state after one frame. */
  function StepState(s: RunState, f: Frame): (s': RunState)
    requires Shaped(s)
    ensures Shaped(s')
    ensures s'.pxToMeter == Latch(s.pxToMeter, f.calibration)
    ensures s'.raw == s.raw + (if f.blob.Some? then [RawOf(f.t, f.blob.value, s'.pxToMeter)] else [])
    ensures |s'.filt| == |s.filt| + (if f.blob.Some? && s'.pxToMeter.Some? then 1 else 0)
    ensures s'.filt[..|s.filt|] == s.filt
    ensures f.blob.None? || s'.pxToMeter.None? ==> s' == s.(pxToMeter := s'.pxToMeter, raw := s'.raw)
  {
    var px := Latch(s.pxToMeter, f.calibration);
    if f.blob.None? then s.(pxToMeter := px)
    else
      var b := f.blob.value;
      var s1 := s.(pxToMeter := px, raw := s.raw + [RawOf(f.t, b, px)]);
      if px.None? then s1
      else TrackState(s1, f.t, Metres(b.x, px.value), Metres(b.y, px.value))
  }

  /** The run state after a sequence of frames. */
  function Replay(s: RunState, fs: seq<Frame>): (s': RunState)
    requires Shaped(s)
    ensures Shaped(s')
    decreases |fs|
  {
    if |fs| == 0 then s else StepState(Replay(s, fs[..|fs| - 1]), fs[|fs| - 1])
  }

  /** The state when processing starts: nothing recorded, no scale, a fresh filter. */
  function InitialState(): (s: RunState)
    ensures Shaped(s)
  {
    RunState(None, [], [], false, 0.0, Zeros(4, 1), Identity(4, InitialCov))
  }

  /** The number of frames with a detection. */
  function Detections(fs: seq<Frame>): nat
  {
    if |fs| == 0 then 0 else Detections(fs[..|fs| - 1]) + (if fs[|fs| - 1].blob.Some? then 1 else 0)
  }

  /** The scale after a sequence of frames, starting from p: the calibration results
      latched one frame after another. */
  function ScaleAfter(p: Option<real>, fs: seq<Frame>): Option<real>
    decreases |fs|
  {
    if |fs| == 0 then p else Latch(ScaleAfter(p, fs[..|fs| - 1]), fs[|fs| - 1].calibration)
  }

  /** The raw samples a sequence of frames records, starting from scale p: one per
      detection, in metres once the scale after that frame is known. */
  function RawSamples(p: Option<real>, fs: seq<Frame>): (r: seq<RawSample>)
    ensures |r| == Detections(fs)
    decreases |fs|
  {
    if |fs| == 0 then []
    else
      var last := fs[|fs| - 1];
      RawSamples(p, fs[..|fs| - 1]) + (if last.blob.Some? then [RawOf(last.t, last.blob.value, ScaleAfter(p, fs))] else [])
  }

  /** The number of frames with a detection and, after that frame, a known scale. */
  function Tracked(p: Option<real>, fs: seq<Frame>): (n: nat)
    ensures n <= Detections(fs)
    decreases |fs|
  {
    if |fs| == 0 then 0
    else Tracked(p, fs[..|fs| - 1]) + (if fs[|fs| - 1].blob.Some? && ScaleAfter(p, fs).Some? then 1 else 0)
  }

  /** The scale of the frame loop depends on the calibration results alone. */
  lemma {:induction false} ReplayScale(s: RunState, fs: seq<Frame>)
    requires Shaped(s)
    ensures Replay(s, fs).pxToMeter == ScaleAfter(s.pxToMeter, fs)
    decreases |fs|
  {
    if |fs| > 0 {
      ReplayScale(s, fs[..|fs| - 1]);
    }
  }

  /** Once a scale is known, no later frame changes it. */
  lemma {:induction false} ScaleStaysLatched(s: RunState, fs: seq<Frame>)
    requires Shaped(s) && s.pxToMeter.Some?
    ensures Replay(s, fs).pxToMeter == s.pxToMeter
    decreases |fs|
  {
    if |fs| > 0 {
      ScaleStaysLatched(s, fs[..|fs| - 1]);
    }
  }

  /** Starting without a scale, the scale after a run is the first truthy calibration
      result among the frames, and there is none exactly when no frame had one. */
  lemma {:induction false} ScaleIsFirstCalibration(s: RunState, fs: seq<Frame>)
    requires Shaped(s) && s.pxToMeter.None?
    ensures Replay(s, fs).pxToMeter.None? <==> forall k :: 0 <= k < |fs| ==> !Truthy(fs[k].calibration)
    ensures Replay(s, fs).pxToMeter.Some? ==>
              exists k :: 0 <= k < |fs| && fs[k].calibration == Replay(s, fs).pxToMeter &&
                          Truthy(fs[k].calibration) && forall j :: 0 <= j < k ==> !Truthy(fs[j].calibration)
    decreases |fs|
  {
    if |fs| > 0 {
      var init := fs[..|fs| - 1];
      ScaleIsFirstCalibration(s, init);
      var before := Replay(s, init).pxToMeter;
      if before.Some? {
        var k :| 0 <= k < |init| && init[k].calibration == before && Truthy(init[k].calibration)
                 && forall j :: 0 <= j < k ==> !Truthy(init[j].calibration);
        assert fs[k] == init[k];
        forall j | 0 <= j < k ensures !Truthy(fs[j].calibration) {
          assert fs[j] == init[j];
        }
      } else {
        assert forall k :: 0 <= k < |init| ==> fs[k] == init[k];
      }
    }
  }

  /** Every detection adds exactly one raw sample, after the earlier ones: the frame's time,
      the blob's pixel centre, and metres exactly when a scale is known after that frame. */
  lemma {:induction false} RawSamplePerDetection(s: RunState, fs: seq<Frame>)
    requires Shaped(s)
    ensures Replay(s, fs).raw == s.raw + RawSamples(s.pxToMeter, fs)
    ensures |Replay(s, fs).raw| == |s.raw| + Detections(fs)
    decreases |fs|
  {
    if |fs| > 0 {
      var init := fs[..|fs| - 1];
      RawSamplePerDetection(s, init);
      ReplayScale(s, fs);
      var last := fs[|fs| - 1];
      var added := if last.blob.Some? then [RawOf(last.t, last.blob.value, ScaleAfter(s.pxToMeter, fs))] else [];
      assert Replay(s, fs).raw == Replay(s, init).raw + added;
      assert RawSamples(s.pxToMeter, fs) == RawSamples(s.pxToMeter, init) + added;
    }
  }

  /** A filtered sample is added exactly for each detection on a frame after which the scale
      is known, and earlier filtered samples are kept. */
  lemma {:induction false} FilteredSamplePerCalibratedDetection(s: RunState, fs: seq<Frame>)
    requires Shaped(s)
    ensures |Replay(s, fs).filt| == |s.filt| + Tracked(s.pxToMeter, fs)
    ensures Replay(s, fs).filt[..|s.filt|] == s.filt
    decreases |fs|
  {
    if |fs| > 0 {
      var init := fs[..|fs| - 1];
      FilteredSamplePerCalibratedDetection(s, init);
      ReplayScale(s, fs);
      var f, f' := Replay(s, init).filt, Replay(s, fs).filt;
      assert f'[..|f|] == f;
      assert f'[..|s.filt|] == f'[..|f|][..|s.filt|];
    }
  }

  /** Until a frame brings a truthy calibration result, detections are recorded in pixels only
      and no filtered sample is added. */
  lemma {:induction false} UncalibratedFramesAddNoFiltered(s: RunState, fs: seq<Frame>)
    requires Shaped(s) && s.pxToMeter.None?
    requires forall k :: 0 <= k < |fs| ==> !Truthy(fs[k].calibration)
    ensures Replay(s, fs).pxToMeter.None?
    ensures Replay(s, fs).filt == s.filt
    ensures forall k :: |s.raw| <= k < |Replay(s, fs).raw| ==> Replay(s, fs).raw[k].xM.None?
    decreases |fs|
  {
    if |fs| > 0 {
      var init := fs[..|fs| - 1];
      assert forall k :: 0 <= k < |init| ==> init[k] == fs[k];
      UncalibratedFramesAddNoFiltered(s, init);
      var r, r' := Replay(s, init).raw, Replay(s, fs).raw;
      forall k | |s.raw| <= k < |r'| ensures r'[k].xM.None? {
        if k < |r| {
          assert r'[k] == r[k];
        }
      }
    }
  }

  /** The bookkeeping that holds between frames: the filter is initialised exactly when a
      filtered sample exists, only with a scale, never more filtered than raw samples, and
      the previous time is that of the last filtered sample. */
  predicate Consistent(s: RunState)
  {
    && (s.initialized <==> |s.filt| > 0)
    && (s.initialized ==> s.pxToMeter.Some? && s.prevT == s.filt[|s.filt| - 1].t)
    && |s.filt| <= |s.raw|
  }

  lemma StepKeepsConsistent(s: RunState, f: Frame)
    requires Shaped(s) && Consistent(s)
    ensures Consistent(StepState(s, f))
  {
  }

  /** Every state the frame loop passes through is consistent. */
  lemma {:induction false} ReplayKeepsConsistent(s: RunState, fs: seq<Frame>)
    requires Shaped(s) && Consistent(s)
    ensures Consistent(Replay(s, fs))
    decreases |fs|
  {
    if |fs| > 0 {
      ReplayKeepsConsistent(s, fs[..|fs| - 1]);
      StepKeepsConsistent(Replay(s, fs[..|fs| - 1]), fs[|fs| - 1]);
    }
  }

  lemma InitialStateConsistent()
    ensures Consistent(InitialState())
  {
  }

  /** The first calibrated detection seeds the filter without a prediction: the recorded
      filtered sample is the measured position in metres with zero velocity. */
  lemma FirstDetectionSeeds(s: RunState, f: Frame)
    requires Shaped(s) && !s.initialized && f.blob.Some? && Latch(s.pxToMeter, f.calibration).Some?
    ensures var s' := StepState(s, f);
            var scale := Latch(s.pxToMeter, f.calibration).value;
      && s'.initialized && s'.prevT == f.t && s'.P == Identity(4, SeedCov)
      && s'.filt == s.filt + [FiltSample(f.t, Metres(f.blob.value.x, scale), Metres(f.blob.value.y, scale), 0.0, 0.0)]
  {
  }

  /** A later detection that lands exactly where the filter predicts leaves the filter on
      its prediction: the recorded position is the previous one advanced by its velocity
      over a step of at least 1 ms, and the velocity is unchanged. */
  lemma OnTrackDetectionFollowsPrediction(s: RunState, f: Frame)
    requires Shaped(s) && s.initialized && s.pxToMeter.Some? && f.blob.Some?
    requires var dt := StepDt(f.t, s.prevT);
      && Metres(f.blob.value.x, s.pxToMeter.value) == s.x[0][0] + dt * s.x[1][0]
      && Metres(f.blob.value.y, s.pxToMeter.value) == s.x[2][0] + dt * s.x[3][0]
    ensures var s' := StepState(s, f);
            var dt := StepDt(f.t, s.prevT);
      && dt >= MinDt && s'.prevT == f.t
      && s'.filt == s.filt + [FiltSample(f.t, s.x[0][0] + dt * s.x[1][0], s.x[2][0] + dt * s.x[3][0], s.x[1][0], s.x[3][0])]
  {
    var dt := StepDt(f.t, s.prevT);
    var xp := PredictedState(s.x, dt);
    PredictAdvancesPositions(s.x, dt);
    var z := [[Metres(f.blob.value.x, s.pxToMeter.value)], [Metres(f.blob.value.y, s.pxToMeter.value)]];
    ZeroInnovationKeepsState(xp, PredictedCov(s.P, dt), z);
  }

  /** The analysis of one video: the recorded samples, the scale and the filter. */
  class Analysis {
    var pxToMeter: Option<real>
    var samplesRaw: seq<RawSample>
    var samplesFilt: seq<FiltSample>
    var initialized: bool
    var prevT: real
    var kf: Filter

    ghost predicate Valid()
      reads this, kf
    {
      kf.Valid()
    }

    /** The fields as a run state. */
    function Snapshot(): (s: RunState)
      reads this, kf
    {
      RunState(pxToMeter, samplesRaw, samplesFilt, initialized, prevT, kf.x, kf.P)
    }

    /** The reset at the start of processing, with a fresh filter. */
    constructor ()
      ensures Valid() && fresh(kf)
      ensures Snapshot() == InitialState()
    {
      pxToMeter := None;
      samplesRaw := [];
      samplesFilt := [];
      initialized := false;
      prevT := 0.0;
      kf := new Filter();
    }

    /** The state-update part of `processFrame` for one frame. */
    method Step(f: Frame)
      requires Valid()
      modifies this, kf
      ensures Valid() && kf == old(kf)
      ensures Snapshot() == StepState(old(Snapshot()), f)
    {
      if pxToMeter.None? {
        var cal := f.calibration;
        if cal.Some? && cal.value != 0.0 {
          pxToMeter := cal;
        }
      }
      if f.blob.Some? {
        var pos := f.blob.value;
        var xPx, yPx := pos.x, pos.y;
        var xM := if pxToMeter.Some? then Some(Metres(xPx, pxToMeter.value)) else None;
        var yM := if pxToMeter.Some? then Some(Metres(yPx, pxToMeter.value)) else None;
        samplesRaw := samplesRaw + [RawSample(f.t, xPx, yPx, xM, yM)];
        if pxToMeter.Some? {
          Track(f.t, xM.value, yM.value);
        }
      }
    }

    /** The calibrated-detection branch: seed or predict and update, then record the
        filtered state. */
    method Track(t: real, xm: real, ym: real)
      requires Valid()
      modifies this, kf
      ensures Valid() && kf == old(kf)
      ensures Snapshot() == TrackState(old(Snapshot()), t, xm, ym)
    {
      ghost var s0 := Snapshot();
      var z := [[xm], [ym]];
      if !initialized {
        kf.SetFromMeasurement(z);
        initialized := true;
        prevT := t;
      } else {
        var dt := if MinDt >= t - prevT then MinDt else t - prevT;
        assert dt == StepDt(t, s0.prevT);
        kf.Predict(dt);
        kf.Update(z);
        prevT := t;
      }
      assert kf.x == FilterX(s0, t, xm, ym);
      assert kf.P == FilterP(s0, t);
      var st := kf.GetState();
      samplesFilt := samplesFilt + [FiltSample(t, st.x, st.y, st.vx, st.vy)];
    }

    /** The frame loop over an already decoded sequence of frames. */
    method Run(frames: seq<Frame>)
      requires Valid()
      modifies this, kf
      ensures Valid() && kf == old(kf)
      ensures Snapshot() == Replay(old(Snapshot()), frames)
    {
      var i := 0;
      while i < |frames|
        invariant 0 <= i <= |frames|
        invariant Valid() && kf == old(kf)
        invariant Snapshot() == Replay(old(Snapshot()), frames[..i])
      {
        assert frames[..i + 1][..i] == frames[..i];
        Step(frames[i]);
        i := i + 1;
      }
      assert frames[..i] == frames;
    }

    /** `processFrame` on a decoded image: calibrate while no scale is known, detect at
        stride 2, and stamp the frame with the video time scaled by the slow-motion factor. */
    method ProcessFrame(img: Image, videoTime: real, slowMotionFactor: real)
      requires Valid() && ValidImage(img)
      modifies this, kf
      ensures Valid() && kf == old(kf)
      ensures Snapshot() == StepState(old(Snapshot()),
        Frame(videoTime * slowMotionFactor, Calibration.ScaleOf(Calibration.Points(img, 0)),
              Detection.BlobOf(Detection.ScanTally(img, DetectStride))))
    {
      var cal: Option<real> := None;
      if pxToMeter.None? {
        cal := Calibration.EstimatePxToMeter(img);
      }
      var pos := Detection.DetectBall(img, DetectStride);
      var t := videoTime * slowMotionFactor;
      Step(Frame(t, cal, pos));
    }
  }
}
