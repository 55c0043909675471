/**
 * Artifact-aligned epoch cutting: each trial is re-centred on the strongest
 * Teager-Kaiser energy peak within 10 ms of its trigger, rejected when its
 * baseline is contaminated, and resampled to 1 kHz when recorded otherwise.
 */
module Map {
  import opened Outcomes
  import opened PyArrays
  import opened Traces

  /** The exceptions the aligned cutter raises. */
  datatype Error =
    | ChannelNotFound(channel: string)  // IndexError from the muscle lookup
    | EmptyPeakWindow                   // ValueError from np.argmax on an empty array
    | EmptyBaseline                     // ValueError from np.ptp on an empty array

  /** The text the exception carries; the lookup's names the muscle. */
  function Message(e: Error): (m: string)
    ensures e.ChannelNotFound? ==> e.channel <= m && |m| > |e.channel|
  {
    match e
    case ChannelNotFound(name) => name + " was not found in the available channels!"
    case EmptyPeakWindow => "attempt to get argmax of an empty sequence"
    case EmptyBaseline => "zero-size array to reduction operation maximum which has no identity"
  }

  /** One output row: the trial's samples, or the all-NaN sentinel of the given length. */
  datatype Trial = Accepted(samples: seq<real>) | Rejected(len: nat)

  /** The per-recording sample counts the cutter derives before its loop. */
  datatype Window = Window(pre: nat, post: nat, lookAround: nat, fs: real, trialLen: nat)
  {
    /** pad_size: zeros added on each side of the channel. */
    function Pad(): nat { pre + post }
  }

  /** The rate trials are resampled to, in Hz. */
  const CanonicalFs: real := 1000.0
  /** Half-width of the artifact search, in milliseconds. */
  const SearchMs: real := 10.0
  /** The largest baseline peak-to-peak amplitude a trial may have and be kept. */
  const MaxBaselinePtp: real := 50.0
  /** Samples just before the stimulus that the baseline leaves out. */
  const BaselineMargin: int := 5

  /** Durations in milliseconds turned into sample counts at rate fs. */
  function WindowOf(fs: real, preMs: nat, postMs: nat): Window
    requires 0.0 <= fs
  {
    Window(SampleCount(preMs as real, fs), SampleCount(postMs as real, fs),
           SampleCount(SearchMs, fs), fs, preMs + postMs)
  }

  /** The Teager-Kaiser energy of one sample given its two neighbours. */
  function Energy(prev: real, cur: real, next: real): real
  {
    cur * cur - next * prev
  }

  /** The discrete Teager-Kaiser energy operator: the energy of every sample that has two neighbours. */
  function Tkeo(a: seq<real>): (r: seq<real>)
    ensures |r| == if |a| >= 2 then |a| - 2 else 0
  {
    if |a| < 2 then []
    else seq(|a| - 2, k requires 0 <= k < |a| - 2 => Energy(a[k], a[k + 1], a[k + 2]))
  }

  /**
   * The operator as numpy evaluates it, from three shifted slices,
   * a[1:-1] * a[1:-1] - a[2:] * a[:-2], gives the same energies for every
   * input, including those too short to have any.
   */
  lemma TkeoAsSlices(a: seq<real>)
    ensures |Slice(a, 1, -1)| == |Slice(a, 2, |a|)| == |Slice(a, 0, -2)| == |Tkeo(a)|
    ensures Tkeo(a) == Difference(Product(Slice(a, 1, -1), Slice(a, 1, -1)), Product(Slice(a, 2, |a|), Slice(a, 0, -2)))
  {
    TkeoSlices(a);
    if |a| >= 2 {
      var mid, hi, lo := a[1..|a| - 1], a[2..], a[..|a| - 2];
      var r := Difference(Product(mid, mid), Product(hi, lo));
      forall k | 0 <= k < |r|
        ensures r[k] == Tkeo(a)[k]
      {
        TkeoTerm(mid, hi, lo, k, a[k], a[k + 1], a[k + 2]);
      }
    }
  }

  /**
   * Sample k of numpy's expression is an energy: with cur at mid[k], next at
   * hi[k] and prev at lo[k], cur * cur - next * prev.
   */
  lemma TkeoTerm(mid: seq<real>, hi: seq<real>, lo: seq<real>, k: nat, prev: real, cur: real, next: real)
    requires |mid| == |hi| == |lo| && k < |mid|
    requires mid[k] == cur && hi[k] == next && lo[k] == prev
    ensures Difference(Product(mid, mid), Product(hi, lo))[k] == Energy(prev, cur, next)
  {
  }

  /** The three shifted slices Tkeo combines, as subsequences of a. */
  lemma TkeoSlices(a: seq<real>)
    ensures |a| < 2 ==> Slice(a, 1, -1) == [] && Slice(a, 2, |a|) == [] && Slice(a, 0, -2) == []
    ensures |a| >= 2 ==> (Slice(a, 1, -1) == a[1..|a| - 1] && Slice(a, 2, |a|) == a[2..] &&
      Slice(a, 0, -2) == a[..|a| - 2])
  {
    if |a| >= 2 {
      SliceInBounds(a, 1, |a| - 1);
      SliceInBounds(a, 2, |a|);
      SliceInBounds(a, 0, |a| - 2);
    }
  }

  /** The 2 * lookAround padded samples around the nominal onset that are searched for the artifact. */
  function SearchWindow(padded: seq<real>, onset: int, w: Window): seq<real>
  {
    Slice(padded, onset - w.lookAround + w.Pad(), onset + w.lookAround + w.Pad())
  }

  /**
   * The signed offset of the artifact from the nominal onset: the first
   * argmax of the window's energy, minus lookAround. numpy raises when the
   * energy is empty.
   */
  function PeakShift(padded: seq<real>, onset: int, w: Window): Result<int, Error>
  {
    var energy := Tkeo(SearchWindow(padded, onset, w));
    if |energy| == 0 then Err(EmptyPeakWindow) else Ok(ArgMax(energy) - w.lookAround)
  }

  /** The trial window moved by shift: [onset - pre + shift, onset + post + shift) of the signal. */
  function Recentred(padded: seq<real>, onset: int, w: Window, shift: int): seq<real>
  {
    Slice(padded, onset - w.pre + w.Pad() + shift, onset + w.post + w.Pad() + shift)
  }

  /** trial[:pre - 5] */
  function Baseline(trial: seq<real>, w: Window): seq<real>
  {
    Slice(trial, 0, w.pre - BaselineMargin)
  }

  /**
   * The quality gate and resampling applied to a re-centred trial: numpy
   * raises on an empty baseline, a baseline spanning more than 50 gives the
   * sentinel, and a trial not recorded at 1 kHz is resampled.
   */
  function Gate(trial: seq<real>, w: Window, resample: (seq<real>, nat) -> seq<real>): Result<Trial, Error>
  {
    var baseline := Baseline(trial, w);
    if |baseline| == 0 then Err(EmptyBaseline)
    else if Ptp(baseline) > MaxBaselinePtp then Ok(Rejected(w.pre + w.post))
    else if w.fs != CanonicalFs then Ok(Accepted(resample(trial, w.trialLen)))
    else Ok(Accepted(trial))
  }

  /** What one onset contributes to the output, or the exception it raises. */
  function Epoch(padded: seq<real>, onset: int, w: Window,
                 resample: (seq<real>, nat) -> seq<real>): Result<Trial, Error>
  {
    match PeakShift(padded, onset, w)
    case Err(e) => Err(e)
    case Ok(shift) => Gate(Recentred(padded, onset, w, shift), w, resample)
  }

  /** The detected shift always lies in [-lookAround, lookAround - 3]. */
  lemma ShiftBounds(padded: seq<real>, onset: int, w: Window)
    requires PeakShift(padded, onset, w).Ok?
    ensures -(w.lookAround as int) <= PeakShift(padded, onset, w).value <= w.lookAround - 3
  {
    SliceLengthBound(padded, onset - w.lookAround + w.Pad(), onset + w.lookAround + w.Pad());
  }

  /**
   * When the search window lies inside the padded signal it has
   * 2 * lookAround samples, and the argmax raises exactly when lookAround < 2.
   */
  lemma PeakWindowInBounds(padded: seq<real>, onset: int, w: Window)
    requires 0 <= onset - w.lookAround + w.Pad() && onset + w.lookAround + w.Pad() <= |padded|
    ensures |SearchWindow(padded, onset, w)| == 2 * w.lookAround
    ensures PeakShift(padded, onset, w).Err? <==> w.lookAround < 2
    ensures PeakShift(padded, onset, w).Err? ==> PeakShift(padded, onset, w).error == EmptyPeakWindow
  {
  }

  /** The energy at a sample with a silent left neighbour is its square, hence positive. */
  lemma EnergyAtImpulse(x: real, y: real, z: real)
    requires x == 0.0 && y != 0.0
    ensures Energy(x, y, z) > 0.0
  {
    calc {
      Energy(x, y, z);
      y * y - z * 0.0;
      y * y;
    >
      0.0;
    }
  }

  /** The energy of a lone non-zero sample at p peaks at index p - 1, one sample before it. */
  lemma TkeoImpulse(xs: seq<real>, p: nat, amp: real)
    requires 1 <= p <= |xs| - 2 && amp != 0.0
    requires forall i :: 0 <= i < |xs| ==> xs[i] == if i == p then amp else 0.0
    ensures |Tkeo(xs)| > 0 && ArgMax(Tkeo(xs)) == p - 1
  {
    var t := Tkeo(xs);
    EnergyAtImpulse(xs[p - 1], xs[p], xs[p + 1]);
    assert t[p - 1] > 0.0;
    ArgMaxIsMaximum(t);
  }

  /**
   * An isolated impulse d samples after the nominal onset, inside the search
   * window, is detected as a shift of d - 1.
   */
  lemma ImpulseShift(padded: seq<real>, onset: int, w: Window, d: int, amp: real)
    requires 0 <= onset - w.lookAround + w.Pad() && onset + w.lookAround + w.Pad() <= |padded|
    requires 1 - w.lookAround <= d <= w.lookAround - 2 && amp != 0.0
    requires forall i :: onset - w.lookAround + w.Pad() <= i < onset + w.lookAround + w.Pad() ==>
      padded[i] == if i == onset + w.Pad() + d then amp else 0.0
    ensures PeakShift(padded, onset, w) == Ok(d - 1)
  {
    var win := SearchWindow(padded, onset, w);
    ImpulseWindow(padded, onset, w, d, amp);
    TkeoImpulse(win, d + w.lookAround, amp);
    assert PeakShift(padded, onset, w) == Ok(ArgMax(Tkeo(win)) - w.lookAround);
  }

  /** The search window around an isolated impulse holds it at offset lookAround + d. */
  lemma ImpulseWindow(padded: seq<real>, onset: int, w: Window, d: int, amp: real)
    requires 0 <= onset - w.lookAround + w.Pad() && onset + w.lookAround + w.Pad() <= |padded|
    requires 1 - w.lookAround <= d <= w.lookAround - 2
    requires forall i :: onset - w.lookAround + w.Pad() <= i < onset + w.lookAround + w.Pad() ==>
      padded[i] == if i == onset + w.Pad() + d then amp else 0.0
    ensures var win := SearchWindow(padded, onset, w);
      && |win| == 2 * w.lookAround
      && forall i :: 0 <= i < |win| ==> win[i] == if i == d + w.lookAround then amp else 0.0
  {
    var start := onset - w.lookAround + w.Pad();
    var win := SearchWindow(padded, onset, w);
    forall i | 0 <= i < |win|
      ensures win[i] == if i == d + w.lookAround then amp else 0.0
    {
      assert win[i] == padded[start + i];
    }
  }

  /**
   * The quality gate: given a shift, the call raises exactly when the
   * baseline is empty; otherwise the trial becomes the length pre + post
   * sentinel exactly when two baseline samples differ by more than 50 (a
   * difference of exactly 50 is kept).
   */
  lemma QualityGate(padded: seq<real>, onset: int, w: Window, resample: (seq<real>, nat) -> seq<real>)
    requires PeakShift(padded, onset, w).Ok?
    ensures var base := Baseline(Recentred(padded, onset, w, PeakShift(padded, onset, w).value), w);
      var e := Epoch(padded, onset, w, resample);
      && (e.Err? <==> |base| == 0)
      && (e.Err? ==> e.error == EmptyBaseline)
      && (e.Ok? ==> (e.value.Rejected? <==>
            exists i, j :: 0 <= i < |base| && 0 <= j < |base| && base[i] - base[j] > MaxBaselinePtp))
      && (e.Ok? && e.value.Rejected? ==> e.value.len == w.pre + w.post)
  {
    var base := Baseline(Recentred(padded, onset, w, PeakShift(padded, onset, w).value), w);
    if |base| > 0 {
      PtpExceeds(base, MaxBaselinePtp);
    }
  }

  /**
   * An accepted trial is the re-centred window itself at 1 kHz, and
   * otherwise that window resampled to trialLen samples.
   */
  lemma AcceptedTrial(padded: seq<real>, onset: int, w: Window, resample: (seq<real>, nat) -> seq<real>)
    requires forall t, n :: |resample(t, n)| == n
    requires Epoch(padded, onset, w, resample).Ok? && Epoch(padded, onset, w, resample).value.Accepted?
    ensures var trial := Recentred(padded, onset, w, PeakShift(padded, onset, w).value);
      var samples := Epoch(padded, onset, w, resample).value.samples;
      && (w.fs == CanonicalFs ==> samples == trial)
      && (w.fs != CanonicalFs ==> samples == resample(trial, w.trialLen) && |samples| == w.trialLen)
  {
  }

  /** Re-centring is the unaligned cut of traces.py taken at the shifted onset. */
  lemma RecentredIsTrace(signal: seq<real>, onset: int, w: Window, shift: int)
    ensures Recentred(ZeroPad(signal, w.Pad()), onset, w, shift) == Trace(signal, w.pre, w.post, onset + shift)
  {
    var pad := w.pre + w.post;
    assert w.Pad() == pad;
    assert Trace(signal, w.pre, w.post, onset + shift) ==
      Slice(ZeroPad(signal, pad), onset - w.pre + pad + shift, onset + w.post + pad + shift);
  }

  /** With both windows at least 10 ms long, the search half-width fits inside each of them. */
  lemma LookAroundFits(fs: real, preMs: nat, postMs: nat)
    requires 0.0 <= fs && 10 <= preMs && 10 <= postMs
    ensures WindowOf(fs, preMs, postMs).lookAround <= WindowOf(fs, preMs, postMs).pre
    ensures WindowOf(fs, preMs, postMs).lookAround <= WindowOf(fs, preMs, postMs).post
  {
    SampleCountMonotone(SearchMs, preMs as real, fs);
    SampleCountMonotone(SearchMs, postMs as real, fs);
  }

  /**
   * A trial moved by a shift within [-post, pre] from an onset inside the
   * recording stays inside the padded signal: it has pre + post samples, the
   * signal from onset + shift - pre on with zeros off its ends, and a
   * baseline of pre - 5 samples when pre exceeds 5.
   */
  lemma RecentredInBounds(signal: seq<real>, onset: int, w: Window, shift: int)
    requires 0 <= onset <= |signal|
    requires -(w.post as int) <= shift <= w.pre
    ensures var trial := Recentred(ZeroPad(signal, w.Pad()), onset, w, shift);
      && |trial| == w.pre + w.post
      && (forall i :: 0 <= i < |trial| ==>
            trial[i] == if 0 <= onset + shift - w.pre + i < |signal| then signal[onset + shift - w.pre + i] else 0.0)
      && (5 < w.pre ==> |Baseline(trial, w)| == w.pre - 5)
  {
    var trial := Recentred(ZeroPad(signal, w.Pad()), onset, w, shift);
    RecentredIsTrace(signal, onset, w, shift);
    TraceContent(signal, w.pre, w.post, onset + shift);
    assert |trial| == w.pre + w.post;
  }

  /** The search window is wide enough to have any energy (2 samples each side) exactly from 200 Hz up. */
  lemma SearchNeedsRate(fs: real, preMs: nat, postMs: nat)
    requires 0.0 <= fs
    ensures 2 <= WindowOf(fs, preMs, postMs).lookAround <==> 200.0 <= fs
  {
    var n := SampleCount(SearchMs, fs);
    assert n as real <= SearchMs * fs / 1000.0 < n as real + 1.0;
  }

  /**
   * The padding invariant: when lookAround fits in pre and in post, every
   * onset inside the recording has its search window inside the padded
   * signal, its shift within [-post, pre] so the re-centred trial is too,
   * and the call raises only when lookAround < 2 or pre <= 5.
   */
  lemma EpochInBounds(signal: seq<real>, onset: int, w: Window, resample: (seq<real>, nat) -> seq<real>)
    requires w.lookAround <= w.pre && w.lookAround <= w.post
    requires 0 <= onset <= |signal|
    ensures var padded := ZeroPad(signal, w.Pad());
      && |SearchWindow(padded, onset, w)| == 2 * w.lookAround
      && (PeakShift(padded, onset, w).Ok? <==> 2 <= w.lookAround)
      && (PeakShift(padded, onset, w).Ok? ==> -(w.post as int) <= PeakShift(padded, onset, w).value <= w.pre)
      && (2 <= w.lookAround && 5 < w.pre ==> Epoch(padded, onset, w, resample).Ok?)
  {
    var padded := ZeroPad(signal, w.Pad());
    PeakWindowInBounds(padded, onset, w);
    if PeakShift(padded, onset, w).Ok? {
      var shift := PeakShift(padded, onset, w).value;
      ShiftBounds(padded, onset, w);
      RecentredInBounds(signal, onset, w, shift);
    }
  }

  /** Epoch as a function of the onset alone, for one recording and window. */
  function EpochOf(padded: seq<real>, w: Window, resample: (seq<real>, nat) -> seq<real>): int -> Result<Trial, Error>
  {
    onset => Epoch(padded, onset, w, resample)
  }

  /**
   * A recording whose onsets all lie inside it, cut with a window whose
   * search half-width fits in pre and post, at least 2 samples wide, and a
   * pre of more than 5 samples, never raises: it gives one row per onset.
   */
  lemma CutSucceeds(signal: seq<real>, onsets: seq<int>, w: Window, resample: (seq<real>, nat) -> seq<real>)
    requires 2 <= w.lookAround <= w.pre && w.lookAround <= w.post && 5 < w.pre
    requires forall k :: 0 <= k < |onsets| ==> 0 <= onsets[k] <= |signal|
    ensures var rows := Collect(onsets, EpochOf(ZeroPad(signal, w.Pad()), w, resample));
      rows.Ok? && |rows.value| == |onsets|
  {
    var cut := EpochOf(ZeroPad(signal, w.Pad()), w, resample);
    forall k | 0 <= k < |onsets|
      ensures cut(onsets[k]).Ok?
    {
      EpochInBounds(signal, onsets[k], w, resample);
    }
    CollectOk(onsets, cut);
  }

  /**
   * cut_epoch_mat: a missing channel raises first; otherwise each onset in
   * recorded order is cut by Epoch, and the first one that raises aborts
   * the call (CollectOk and CollectErr state what that means row by row).
   */
  method CutEpochMat(c: Content, muscle: string, preMs: nat, postMs: nat,
                     resample: (seq<real>, nat) -> seq<real>)
    returns (r: Result<seq<Trial>, Error>)
    requires NamedColumns(c) && HasFs(c) && HasOnsetColumn(c) && 0.0 <= RawFs(c)
    ensures muscle !in Names(c) ==> r == Err(Error.ChannelNotFound(muscle))
    ensures muscle in Names(c) ==>
      var w := WindowOf(RawFs(c), preMs, postMs);
      var padded := ZeroPad(GetChannel(c, muscle).value, w.Pad());
      r == Collect(GetOnsets(c), EpochOf(padded, w, resample))
  {
    var channel := GetChannel(c, muscle);
    if channel.Err? {
      return Err(Error.ChannelNotFound(muscle));
    }
    var trace := channel.value;
    var w := WindowOf(RawFs(c), preMs, postMs);
    var padded := ZeroPad(trace, w.Pad());
    r := CutOnsets(padded, GetOnsets(c), w, resample);
  }

  /** The loop of cut_epoch_mat over the onsets, appending one row per onset. */
  method CutOnsets(padded: seq<real>, onsets: seq<int>, w: Window, resample: (seq<real>, nat) -> seq<real>)
    returns (r: Result<seq<Trial>, Error>)
    ensures r == Collect(onsets, EpochOf(padded, w, resample))
  {
    ghost var cut := EpochOf(padded, w, resample);
    var epochs: seq<Trial> := [];
    for i := 0 to |onsets|
      invariant Collect(onsets[..i], cut) == Ok(epochs)
    {
      assert onsets[..i + 1][..i] == onsets[..i];
      var epoch := CutEpoch(padded, onsets[i], w, resample);
      if epoch.Err? {
        CollectAbort(onsets, i + 1, cut);
        return Err(epoch.error);
      }
      epochs := epochs + [epoch.value];
    }
    assert onsets[..|onsets|] == onsets;
    return Ok(epochs);
  }

  // The body of the cutting loop, step by step. Each step is a method proved
  // equal to the function that specifies it (CutEpoch to Epoch, FindShift to
  // PeakShift, CutSearchWindow to SearchWindow, CutRecentred to Recentred,
  // ApplyGate to Gate); the lemmas above are about those functions, so they
  // describe what the loop computes.

  /**
   * One pass of the cutting loop: search the window around the onset for
   * the artifact, re-centre on it, apply the quality gate and resample.
   */
  method CutEpoch(padded: seq<real>, onset: int, w: Window, resample: (seq<real>, nat) -> seq<real>)
    returns (r: Result<Trial, Error>)
    ensures r == Epoch(padded, onset, w, resample)
  {
    var found := FindShift(padded, onset, w);
    if found.Err? {
      return Err(found.error);
    }
    var trial := CutRecentred(padded, onset, w, found.value);
    r := ApplyGate(trial, w, resample);
  }

  /** The trial window re-centred on the artifact: [onset - pre, onset + post) moved by the pad and the shift. */
  method CutRecentred(padded: seq<real>, onset: int, w: Window, shift: int) returns (trial: seq<real>)
    ensures trial == Recentred(padded, onset, w, shift)
  {
    var padSize := w.Pad();
    var a, b := onset - w.pre, onset + w.post;
    a, b := a + padSize + shift, b + padSize + shift;
    trial := Slice(padded, a, b);
  }

  /** The quality gate of the cutting loop on a re-centred trial. */
  method ApplyGate(trial: seq<real>, w: Window, resample: (seq<real>, nat) -> seq<real>)
    returns (r: Result<Trial, Error>)
    ensures r == Gate(trial, w, resample)
  {
    var baseline := Slice(trial, 0, w.pre - BaselineMargin);
    if |baseline| == 0 {
      return Err(EmptyBaseline);
    }
    if Ptp(baseline) > MaxBaselinePtp {
      return Ok(Rejected(w.pre + w.post));
    }
    var out := trial;
    if w.fs != CanonicalFs {
      out := resample(trial, w.trialLen);
    }
    return Ok(Accepted(out));
  }

  /** The artifact search: the argmax of the energy in the window, as an offset from the onset. */
  method FindShift(padded: seq<real>, onset: int, w: Window) returns (r: Result<int, Error>)
    ensures r == PeakShift(padded, onset, w)
  {
    var trial := CutSearchWindow(padded, onset, w);
    var energy := Tkeo(trial);
    if |energy| == 0 {
      return Err(EmptyPeakWindow);
    }
    return Ok(ArgMax(energy) - w.lookAround);
  }

  /** The window searched for the artifact: lookAround samples on each side of the onset, moved by the pad. */
  method CutSearchWindow(padded: seq<real>, onset: int, w: Window) returns (trial: seq<real>)
    ensures trial == SearchWindow(padded, onset, w)
  {
    var padSize := w.Pad();
    var a, b := onset - w.lookAround, onset + w.lookAround;
    a, b := a + padSize, b + padSize;
    trial := Slice(padded, a, b);
  }
}
