/**
 * Reading a converted recording and cutting one channel into fixed windows
 * around each trigger onset, without any alignment to the stimulation
 * artifact.
 */
module Traces {
  import opened Outcomes
  import opened PyArrays

  /** The dictionary loadmat yields for a converted recording. */
  datatype Content = Content(
    data: seq<seq<real>>,         // samples x channels
    fs: seq<seq<real>>,           // the sampling rate, boxed as a 1 x 1 matrix
    chanNames: seq<seq<string>>,  // one row holding the channel names
    stimOnset: seq<seq<int>>)     // a column of onset sample indices

  /** The one exception the unaligned cutter raises: IndexError from the channel lookup. */
  datatype Error = ChannelNotFound(channel: string)

  /** The text the exception carries. */
  function Message(e: Error): (m: string)
    ensures e.channel <= m && |m| > |e.channel|
  {
    e.channel + " was not found in the available channels!"
  }

  /** The channel-name row, chan_names[0]; with no row the lookup raises IndexError too. */
  function Names(c: Content): seq<string>
  {
    if |c.chanNames| > 0 then c.chanNames[0] else []
  }

  /**
   * Every named channel has a column: each sample row is at least as wide
   * as the name row (columns beyond the names are never read).
   */
  predicate NamedColumns(c: Content)
  {
    forall i :: 0 <= i < |c.data| ==> |c.data[i]| >= |Names(c)|
  }

  predicate HasFs(c: Content)
  {
    |c.fs| > 0 && |c.fs[0]| > 0
  }

  predicate HasOnsetColumn(c: Content)
  {
    forall i :: 0 <= i < |c.stimOnset| ==> |c.stimOnset[i]| > 0
  }

  /** np.where(names == target)[0][0]: the first position holding target. */
  function FirstIndex(names: seq<string>, target: string): (r: Option<nat>)
    ensures r.None? <==> target !in names
    ensures r.Some? ==> r.value < |names| && names[r.value] == target
    ensures r.Some? ==> forall j :: 0 <= j < r.value ==> names[j] != target
  {
    if |names| == 0 then None
    else if names[0] == target then Some(0)
    else match FirstIndex(names[1..], target)
      case None => None
      case Some(k) => Some(k + 1)
  }

  /** data[:, k] */
  function Column(data: seq<seq<real>>, k: nat): (col: seq<real>)
    requires forall i :: 0 <= i < |data| ==> k < |data[i]|
  {
    seq(|data|, i requires 0 <= i < |data| => data[i][k])
  }

  /** The full trace of the first channel named target, or the lookup error naming it. */
  function GetChannel(c: Content, target: string): (r: Result<seq<real>, Error>)
    requires NamedColumns(c)
    ensures r.Err? <==> target !in Names(c)
    ensures r.Err? ==> r.error == ChannelNotFound(target)
    ensures r.Ok? ==> |r.value| == |c.data|
    ensures r.Ok? ==> forall k ::
      (0 <= k < |Names(c)| && Names(c)[k] == target && forall j :: 0 <= j < k ==> Names(c)[j] != target) ==>
      forall i :: 0 <= i < |c.data| ==> r.value[i] == c.data[i][k]
  {
    match FirstIndex(Names(c), target)
    case None => Err(ChannelNotFound(target))
    case Some(k) => Ok(Column(c.data, k))
  }

  /** The boxed rate fs[0][0] as stored. */
  function RawFs(c: Content): real
    requires HasFs(c)
  {
    c.fs[0][0]
  }

  /** int(fs[0][0]) */
  function GetFs(c: Content): (fs: int)
    requires HasFs(c)
    ensures 0.0 <= RawFs(c) ==> 0 <= fs && fs as real <= RawFs(c) < fs as real + 1.0
    ensures RawFs(c) < 0.0 ==> fs <= 0 && fs as real - 1.0 < RawFs(c) <= fs as real
  {
    Trunc(RawFs(c))
  }

  /** stim_onset[:, 0], in recorded order. */
  function GetOnsets(c: Content): (onsets: seq<int>)
    requires HasOnsetColumn(c)
    ensures |onsets| == |c.stimOnset|
    ensures forall i :: 0 <= i < |onsets| ==> onsets[i] == c.stimOnset[i][0]
  {
    seq(|c.stimOnset|, i requires 0 <= i < |c.stimOnset| => c.stimOnset[i][0])
  }

  /** int(ms * fs / 1000): a duration in milliseconds as a truncated sample count. */
  function SampleCount(ms: real, fs: real): (n: nat)
    requires 0.0 <= ms && 0.0 <= fs
    ensures n as real <= ms * fs / 1000.0 < n as real + 1.0
  {
    assert 0.0 <= ms * fs;
    Trunc(ms * fs / 1000.0)
  }

  /** A longer duration never yields fewer samples. */
  lemma SampleCountMonotone(ms1: real, ms2: real, fs: real)
    requires 0.0 <= ms1 <= ms2 && 0.0 <= fs
    ensures SampleCount(ms1, fs) <= SampleCount(ms2, fs)
  {
    assert ms1 * fs <= ms2 * fs by {
      ScaleMonotone(ms1, ms2, fs);
    }
    TruncMonotone(ms1 * fs / 1000.0, ms2 * fs / 1000.0);
  }

  lemma ScaleMonotone(x: real, y: real, f: real)
    requires x <= y && 0.0 <= f
    ensures x * f <= y * f
  {
    var d := y - x;
    assert y * f == x * f + d * f;
    assert 0.0 <= d * f;
  }

  /**
   * The trace cut for one onset: the signal is padded with pre + post zeros
   * on each side, the onset moved by the pad, and [onset - pre, onset + post)
   * taken from the padded signal.
   */
  function Trace(signal: seq<real>, pre: nat, post: nat, onset: int): seq<real>
  {
    var pad := pre + post;
    Slice(ZeroPad(signal, pad), onset + pad - pre, onset + pad + post)
  }

  /**
   * For every onset the padding covers, the trace has pre + post samples:
   * the signal from onset - pre on, with zeros wherever that runs off the
   * recording.
   */
  lemma TraceContent(signal: seq<real>, pre: nat, post: nat, onset: int)
    requires 0 <= onset + post && onset <= |signal| + pre
    ensures |Trace(signal, pre, post, onset)| == pre + post
    ensures forall i :: 0 <= i < pre + post ==>
      Trace(signal, pre, post, onset)[i] ==
        if 0 <= onset - pre + i < |signal| then signal[onset - pre + i] else 0.0
  {
    var pad := pre + post;
    SliceInBounds(ZeroPad(signal, pad), onset + pad - pre, onset + pad + post);
  }

  /** The nominal stimulus sample sits at index pre of its trace. */
  lemma TraceStimulusAtPre(signal: seq<real>, pre: nat, post: nat, onset: int)
    requires 0 <= onset < |signal| && post > 0
    ensures |Trace(signal, pre, post, onset)| == pre + post
    ensures Trace(signal, pre, post, onset)[pre] == signal[onset]
  {
    TraceContent(signal, pre, post, onset);
  }

  /** Past the end of the padding the slice is cut short: such a trace has fewer than pre + post samples. */
  lemma TraceShortPastEnd(signal: seq<real>, pre: nat, post: nat, onset: int)
    requires onset > |signal| + pre && pre + post > 0
    ensures |Trace(signal, pre, post, onset)| < pre + post
  {
    var pad := pre + post;
    var padded := ZeroPad(signal, pad);
    assert SliceBound(onset + pad + post, |padded|) == |padded|;
  }

  /**
   * The recording of the package's own test, 10000 samples at 5 kHz cut
   * 500 ms either side: 2500 samples each way, and both of its onsets get
   * full 5000-sample traces.
   */
  lemma TestRecordingTraces(signal: seq<real>)
    requires |signal| == 10000
    ensures SampleCount(500.0, 5000.0) == 2500
    ensures |Trace(signal, 2500, 2500, 3749)| == 5000 && |Trace(signal, 2500, 2500, 9224)| == 5000
  {
    assert 500.0 * 5000.0 / 1000.0 == 2500.0;
    TraceContent(signal, 2500, 2500, 3749);
    TraceContent(signal, 2500, 2500, 9224);
  }

  /**
   * cut_into_traces: one trace per onset, in onset order, each cut by Trace
   * from the named channel; a missing channel raises before anything is cut.
   */
  method CutIntoTraces(c: Content, target: string, preMs: real, postMs: real)
    returns (r: Result<seq<seq<real>>, Error>)
    requires NamedColumns(c) && HasFs(c) && HasOnsetColumn(c)
    requires 0.0 <= RawFs(c) && 0.0 <= preMs && 0.0 <= postMs
    ensures r.Err? <==> target !in Names(c)
    ensures r.Err? ==> r.error == ChannelNotFound(target)
    ensures r.Ok? ==>
      var fs := GetFs(c) as real;
      var pre, post := SampleCount(preMs, fs), SampleCount(postMs, fs);
      |r.value| == |c.stimOnset| &&
      forall k :: 0 <= k < |r.value| ==>
        r.value[k] == Trace(GetChannel(c, target).value, pre, post, c.stimOnset[k][0])
  {
    var channel := GetChannel(c, target);
    if channel.Err? {
      return Err(channel.error);
    }
    var fullTrace := channel.value;
    var fs := GetFs(c);
    var onsets := GetOnsets(c);

    var pre := SampleCount(preMs, fs as real);
    var post := SampleCount(postMs, fs as real);

    var padSize := pre + post;
    var padded := ZeroPad(fullTrace, padSize);
    onsets := seq(|onsets|, k requires 0 <= k < |onsets| => onsets[k] + padSize);

    var traces := CutPadded(padded, onsets, pre, post);
    forall k | 0 <= k < |traces|
      ensures traces[k] == Trace(fullTrace, pre, post, c.stimOnset[k][0])
    {
      ShiftedCut(fullTrace, pre, post, c.stimOnset[k][0], onsets[k]);
    }
    return Ok(traces);
  }

  /** Cutting around an onset already moved by the pad is Trace at the original onset. */
  lemma ShiftedCut(signal: seq<real>, pre: nat, post: nat, onset: int, shifted: int)
    requires shifted == onset + pre + post
    ensures Slice(ZeroPad(signal, pre + post), shifted - pre, shifted + post) == Trace(signal, pre, post, onset)
  {
  }

  /** The cutting loop: [onset - pre, onset + post) of the padded signal for each shifted onset, in order. */
  method CutPadded(padded: seq<real>, onsets: seq<int>, pre: nat, post: nat) returns (traces: seq<seq<real>>)
    ensures |traces| == |onsets|
    ensures forall k :: 0 <= k < |onsets| ==> traces[k] == Slice(padded, onsets[k] - pre, onsets[k] + post)
  {
    traces := [];
    for k := 0 to |onsets|
      invariant |traces| == k
      invariant traces == seq(k, j requires 0 <= j < k => Slice(padded, onsets[j] - pre, onsets[j] + post))
    {
      traces := traces + [Slice(padded, onsets[k] - pre, onsets[k] + post)];
    }
  }
}
