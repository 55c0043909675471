# tool-load-tms conversion core, modelled in Dafny

This project models the three conversion modules of `matprot`. Together they turn a TMS
(transcranial magnetic stimulation) recording and a neuronavigation export into arrays a
Python analysis can use.

- **Unaligned epoch cutting** (`matprot/convert/traces.py`, module `Traces`). The converted
  recording is a dictionary of `data`, `fs`, `chan_names` and `stim_onset`.
  - `get_channel`, `get_fs` and `get_onsets` read from it.
  - `cut_into_traces` turns the pre/post window from milliseconds into truncated sample
    counts and zero-pads the channel by `pre + post` on both sides. It then slices
    `[onset - pre, onset + post)` around every padded onset.
- **Artifact-aligned epoch cutting** (`matprot/convert/map.py`, module `Map`).
  - `tkeo` is the discrete Teager-Kaiser energy operator.
  - `cut_epoch_mat` searches ±10 ms around every onset for the energy peak of the stimulation
    artifact and re-centres the trial on it.
  - A trial whose baseline spans more than 50 is replaced by a sentinel row.
  - Trials not recorded at 1 kHz are resampled.
- **Coordinates** (`matprot/convert/coords.py`, module `Coords`).
  - `parse` reads a GUM or trigger marker list out of an XML tree. Trigger markers store a
    4 x 4 matrix as attributes named by cell digits.
  - `get_M1` gives the primary motor cortex landmark for either hemisphere.
  - `classify_hemisphere` sorts points by the sign of x and takes the centroid of each side.
  - `shift_origin` moves each side's points so that their centroid lands on that side's
    landmark.

Two shared modules hold the Python semantics these rely on:
- `PyArrays` has `int()` truncation, slicing with negative and out-of-range bounds,
  `np.pad`, `argmax` (first maximum), `max`, `min` and `ptp`.
- `Outcomes` has `Option`/`Result` and `Collect`: a loop that appends one result per
  element and lets the first exception escape.

An exception is an `Err` of the module's `Error` type.

The loops of the source are methods proved against specification functions:
- the trace-cutting loop (`CutPadded`);
- the onset loop of `cut_epoch_mat` (`CutOnsets`, with one iteration as `CutEpoch`);
- the 4 x 4 matrix fill (`DecodeTrigger`, on a Dafny `array2`);
- the marker loops (`ParseGumMarker`, `ParseTrigMarker`);
- `classify_hemisphere` and `shift_origin`.

The lemmas beside them prove what the functions mean:
- the per-trial isolation of the cutting loop;
- the exact content of a trace;
- the bounds of the detected shift;
- the quality gate as "two baseline samples differ by more than 50";
- the last-write-wins matrix decoding;
- the landmark mirror;
- the fact that after `shift_origin` each side's centroid sits exactly on its landmark.

One behaviour the model makes visible is that TKEO output `k` belongs to sample `k + 1` of
its window. An isolated impulse `d` samples after the nominal onset is therefore detected as
a shift of `d - 1` (`Map.ImpulseShift`). Trials are re-centred one sample before the peak
itself.

A second behaviour involves row lengths. A rejected trial is a row of `pre + post` samples
at the recording rate. An accepted trial recorded at another rate is resampled to
`pre_ms + post_ms` samples. So at a rate other than 1 kHz the two kinds of row differ in
length whenever `pre + post != pre_ms + post_ms` (`Map.QualityGate`, `Map.AcceptedTrial`).

## Model

| member | source | states |
|---|---|---|
| Outcomes.CollectOk | matprot/convert/map.py:147-171 | a loop over onsets completes exactly when every onset on its own succeeds, and row k is then exactly what onset k alone gives (a rejection touches only its own row) |
| Outcomes.CollectErr | matprot/convert/map.py:147-171 | a loop that raises reports the exception of the first element that raises, every earlier element having succeeded |
| PyArrays.Trunc | matprot/convert/traces.py:121 | int() of a float truncates toward zero: the result is within 1 of x, below it for x >= 0 and above it for x < 0 |
| PyArrays.SliceBound | matprot/convert/traces.py:185 | a slice bound inside [0, n] is kept; a negative one counts from the end (i + n), and becomes 0 when that is still negative; one past n becomes n |
| PyArrays.Slice | matprot/convert/traces.py:185 | s[start:stop] has b - a elements for the normalised bounds a < b and none otherwise |
| PyArrays.SliceLengthBound | matprot/convert/map.py:153 | a slice never yields more than stop - start elements |
| PyArrays.SliceInBounds | matprot/convert/traces.py:185 | a slice with bounds inside the sequence is exactly its subsequence |
| PyArrays.ZeroPad | matprot/convert/traces.py:177 | np.pad(s, p, "constant") has length n + 2p: p zeros, s unchanged, p zeros |
| PyArrays.ArgMaxIsMaximum | matprot/convert/map.py:157 | the index argmax returns holds a value no sample exceeds |
| PyArrays.ArgMaxFirst | matprot/convert/map.py:157 | every sample before the argmax index is strictly smaller: it is the first maximum |
| PyArrays.MaxIsMaximum | matprot/convert/map.py:164 | the maximum is attained and bounds every sample |
| PyArrays.MinIsMinimum | matprot/convert/map.py:164 | the minimum is attained and bounds every sample from below |
| PyArrays.PtpExceeds | matprot/convert/map.py:164 | np.ptp exceeds t exactly when two samples differ by more than t |
| Traces.Message | matprot/convert/traces.py:129 | the lookup error's message contains the requested channel name |
| Traces.FirstIndex | matprot/convert/traces.py:127 | np.where(...)[0][0]: none exactly when the name is absent, otherwise a position holding it with no earlier one |
| Traces.GetChannel | matprot/convert/traces.py:124-132 | the data column of the first channel with the target name, one sample per row; IndexError naming the channel exactly when no name matches |
| Traces.GetFs | matprot/convert/traces.py:119-121 | the boxed rate fs[0][0] truncated toward zero |
| Traces.GetOnsets | matprot/convert/traces.py:135-137 | the first column of stim_onset, one onset per row, in recorded order |
| Traces.SampleCount | matprot/convert/traces.py:170-171 | int(ms * fs / 1000) is the whole number of samples within 1 below the exact count |
| Traces.SampleCountMonotone | matprot/convert/traces.py:170-171 | a longer duration never gives fewer samples |
| Traces.TraceContent | matprot/convert/traces.py:176-186 | for an onset the padding covers, the trace has pre + post samples: signal[onset - pre + i] where that exists, 0 elsewhere |
| Traces.TraceStimulusAtPre | matprot/convert/traces.py:178-186 | the nominal stimulus sample sits at index pre of its trace |
| Traces.TraceShortPastEnd | matprot/convert/traces.py:183-185 | an onset past the end of the padding gives a trace shorter than pre + post |
| Traces.TestRecordingTraces | tests/convert/test_convert_map.py:58-73 | the test recording (10000 samples at 5 kHz, 500 ms each way) gives 2500-sample halves and full 5000-sample traces for both onsets |
| Traces.CutIntoTraces | matprot/convert/traces.py:140-187 | a missing channel raises naming it and nothing else does; otherwise one trace per onset, trace k being the padded cut around onset k |
| Traces.CutPadded | matprot/convert/traces.py:182-186 | the cutting loop: one slice [onset - pre, onset + post) of the padded signal per shifted onset, in order |
| Map.Message | matprot/convert/map.py:126 | the lookup error's message contains the requested muscle name |
| Map.Tkeo | matprot/convert/map.py:95-113 | the energy sequence has two samples fewer than its input, and none for inputs shorter than 2 |
| Map.TkeoAsSlices | matprot/convert/map.py:107-111 | numpy's a[1:-1]*a[1:-1] - a[2:]*a[:-2] equals the elementwise energy a[k+1]^2 - a[k+2]*a[k] for every input, including short ones |
| Map.TkeoSlices | matprot/convert/map.py:107-108 | the three shifted slices are a[1..n-1], a[2..] and a[..n-2], or all empty when n < 2 |
| Map.TkeoTerm | matprot/convert/map.py:107-111 | sample k of i - j, where i = mid * mid and j = hi * lo, is the energy cur * cur - next * prev of the samples mid[k], hi[k], lo[k] |
| Map.ShiftBounds | matprot/convert/map.py:157 | a detected shift lies in [-look_around, look_around - 3] |
| Map.PeakWindowInBounds | matprot/convert/map.py:146-157 | a search window inside the padded signal has 2 * look_around samples, and argmax raises exactly when look_around < 2 |
| Map.TkeoImpulse | matprot/convert/map.py:107-113 | the energy of a lone non-zero sample at p peaks first at index p - 1 |
| Map.ImpulseWindow | matprot/convert/map.py:149-153 | the search window around an isolated impulse holds it at offset look_around + d and zeros elsewhere |
| Map.ImpulseShift | matprot/convert/map.py:149-157 | an isolated impulse d samples after the onset is detected as a shift of d - 1 |
| Map.QualityGate | matprot/convert/map.py:160-166 | the call raises exactly on an empty baseline; otherwise the trial becomes the pre + post sentinel exactly when two baseline samples differ by more than 50 (exactly 50 is kept) |
| Map.AcceptedTrial | matprot/convert/map.py:167-170 | an accepted trial is the re-centred window at 1 kHz, and otherwise that window resampled to pre_ms + post_ms samples |
| Map.RecentredIsTrace | matprot/convert/map.py:160-163 | the re-centred trial is the unaligned cut of cut_into_traces taken at onset + shift |
| Map.LookAroundFits | matprot/convert/map.py:132-146 | with both windows at least 10 ms long, look_around fits inside pre and inside post |
| Map.RecentredInBounds | matprot/convert/map.py:160-164 | a shift within [-post, pre] of an onset inside the recording gives pre + post samples of the signal (zeros off its ends) and a baseline of pre - 5 samples |
| Map.SearchNeedsRate | matprot/convert/map.py:146-157 | the search has any energy (look_around >= 2) exactly at rates of 200 Hz and above |
| Map.EpochInBounds | matprot/convert/map.py:137-166 | for an onset inside the recording and look_around within pre and post, the search window is inside the padding, the shift is within [-post, pre], and only look_around < 2 or pre <= 5 make the call raise |
| Map.CutSucceeds | matprot/convert/map.py:147-171 | a recording whose onsets lie inside it, cut with such a window, never raises and gives one row per onset |
| Map.CutEpochMat | matprot/convert/map.py:116-171 | a missing muscle raises naming it; otherwise the rows are Collect of Epoch over the onsets in recorded order |
| Map.CutOnsets | matprot/convert/map.py:147-171 | the onset loop appends Epoch of each onset in order and stops at the first exception |
| Map.CutEpoch | matprot/convert/map.py:148-170 | one iteration is Epoch: peak search, re-centring, quality gate and resampling |
| Map.FindShift | matprot/convert/map.py:149-157 | the artifact search returns PeakShift: the first energy argmax minus look_around, or the argmax exception on an empty energy |
| Map.CutSearchWindow | matprot/convert/map.py:149-153 | the searched samples are SearchWindow: look_around either side of the onset, moved by the pad |
| Map.CutRecentred | matprot/convert/map.py:160-163 | the re-centred trial is Recentred: [onset - pre, onset + post) moved by the pad and the shift |
| Map.ApplyGate | matprot/convert/map.py:164-170 | the gate and resampling step computes Gate on the re-centred trial |
| Coords.Message | matprot/convert/coords.py:81 | the unknown-format message contains the root tag |
| Coords.Digit | matprot/convert/coords.py:66 | int() of one character succeeds exactly on a decimal digit and gives its value |
| Coords.KeyCell | matprot/convert/coords.py:66-67 | an attribute name addresses a cell exactly when its last two characters are digits 0-3; the last is the row, the next-to-last the column |
| Coords.CellLastWrite | matprot/convert/coords.py:63-67 | a cell stays NaN exactly when no attribute addresses it, and otherwise holds the value of the last attribute that does |
| Coords.TriggerEntryOk | matprot/convert/coords.py:63-69 | a marker decodes exactly when it has a second child whose names all address cells; the entry is 3 wide; a bad key is the first such name |
| Coords.DecodeTrigger | matprot/convert/coords.py:63-69 | the matrix fill on a NaN-filled 4 x 4 array yields TriggerEntry: the first three cells of the bottom row |
| Coords.MarkersAppend | matprot/convert/coords.py:61-62 | the marker filter keeps document order across a concatenation |
| Coords.MarkersSelect | matprot/convert/coords.py:61-62 | exactly the children tagged TriggerMarker are kept |
| Coords.GumEntry | matprot/convert/coords.py:51-52 | a GUM entry fails only with the missing-child error |
| Coords.GumEntryPath | matprot/convert/coords.py:51-52 | a GUM entry exists exactly when child[0][0][0][0] does, and lists that element's attribute values in order |
| Coords.AtLeast2d | matprot/convert/coords.py:55 | np.atleast_2d: raises exactly on rows of different lengths; no rows give one empty row; otherwise the rows come back unchanged |
| Coords.ParseGumMarker | matprot/convert/coords.py:48-55 | the GUM loop appends one entry per child and stops at the first malformed one |
| Coords.ParseTrigMarker | matprot/convert/coords.py:58-72 | the trigger loop appends one entry per TriggerMarker child, skipping the others, and stops at the first malformed one |
| Coords.Parse | matprot/convert/coords.py:75-83 | parse computes Parsed: dispatch on the root tag |
| Coords.ParseFormats | matprot/convert/coords.py:75-81 | the unknown-format error is raised exactly for tags other than the two marker lists, and carries the tag |
| Coords.TriggerRows | matprot/convert/coords.py:58-72 | a trigger list parses exactly when every marker decodes; row k is marker k's entry, 3 wide; no markers give one empty row |
| Coords.GumRows | matprot/convert/coords.py:48-55 | no children give one empty row; otherwise the list parses exactly when every child has the path and every entry is as wide as the first, and row k is child k's entry; the missing-child error arises exactly when some child lacks the path, the inhomogeneous-rows error exactly when all have it and some width differs |
| Coords.GetM1 | matprot/convert/coords.py:102-114 | an unknown coordinate system raises first; for a known one the call succeeds exactly for "L" and "R", and raises the hemisphere error otherwise |
| Coords.M1Mirror | matprot/convert/coords.py:108-110 | the right landmark is the left one with x negated, and each lies on its own side |
| Coords.DefaultLandmarks | tests/convert/test_convert_coords.py:21-27 | the MNI and Talairach values, and an unknown name in either argument raising its own error |
| Coords.SidesCount | matprot/convert/coords.py:141-149 | the left, right and vertex points together number the input |
| Coords.SideMembers | matprot/convert/coords.py:141-149 | a side keeps exactly the points labelled with it |
| Coords.Mean | matprot/convert/coords.py:152-153 | the centroid is missing exactly when there are no points |
| Coords.CentroidSide | matprot/convert/coords.py:151-153 | a side's centroid is missing exactly when no point has its label, and otherwise lies on that side of the midline |
| Coords.ClassifyHemisphere | matprot/convert/coords.py:117-154 | one label per point in order by the sign of x, and the centroid of the left and of the right points (vertex points join neither) |
| Coords.ShiftOrigin | matprot/convert/coords.py:157-171 | one row per point in order: the point moved by its side's offset, a vertex point by the right offset on y and z only |
| Coords.MeanMoved | matprot/convert/coords.py:159-167 | moving every point by d moves the centroid by d |
| Coords.ShiftedCentroid | matprot/convert/coords.py:159-167 | after shift_origin the points of a non-empty side have their centroid exactly on that side's landmark |
| Coords.VertexShift | matprot/convert/coords.py:161-169 | a vertex point keeps x = 0; its y and z move by the right offset, and are NaN exactly when there is no right point |
| Coords.ShiftOriginExample | tests/convert/test_convert_coords.py:5-18 | the example of one point per side and one on the midline: centroids are the points, and they land on the landmarks |

## Left out

- The MATLAB conversion is not modelled. This covers `TmpDir`, `create_matlab_commands`,
  `create_m_cmds`, `create_shell_commands`, `create_bash_cmd`, `convert_mat` and
  `is_matlab_installed`. They consist of subprocess calls, temporary files and `loadmat`.
- `convert_xml_to_coords` is not modelled. It reads the file with `ET.parse`. Its
  normalising branch runs `shift_origin` on parsed rows, which may hold NaN or have another
  width; `ShiftOrigin` takes finite triples only.
- `DEFAULT_TARGETS_RIGHT`, `matprot/cli.py`, `setup.py` and `matprot/types.py` are not part
  of this model.
- `scipy.signal.resample` is a function parameter. Its FFT numerics are not modelled. Only
  its output length is assumed, in the precondition of `Map.AcceptedTrial`.
- The `trial.std() == np.inf` check of `cut_epoch_mat` is not modelled. It cannot fire on
  the unbounded reals the model uses.
- Samples and coordinates are exact reals. Floating-point rounding is not modelled.
- NaN samples in recordings are not modelled. NaN appears only where the source creates it:
  unset matrix cells, missing centroids and the rows derived from them.
- Rejected trials are the sentinel `Rejected(len)`, not an array of NaN.
- The final `np.asanyarray(epochs)` of `cut_epoch_mat` is not modelled. The result is the
  row list.
- XML attribute text is given already read as a float. A value `float()` cannot read is not
  modelled.
- `int()` on a key character is decimal ASCII only. Other Unicode digits are not modelled.
- Traces.CutIntoTraces: requires every data row to have a column for each channel name
  (extra unnamed columns are allowed), an `fs` cell and an onset column. These are
  assumptions about the shape of the MATLAB export; a recording breaking them is not
  modelled. It also requires a non-negative rate. A negative rate gives negative sample
  counts, which `np.pad` rejects; that error is not modelled.
- Traces.CutIntoTraces: requires non-negative `pre_ms` and `post_ms`. The source also
  accepts a negative duration when `pre + post >= 0` (for example -100 ms and 500 ms at
  1 kHz pad by 400 and cut `[onset + 500, onset + 900)` of the padded signal). Such
  windows are not modelled.
- Map.CutEpochMat: the same shape and rate preconditions as `CutIntoTraces`. `pre_ms` and
  `post_ms` are whole non-negative milliseconds, because `resample` needs a whole sample
  count. Negative or fractional durations are not modelled.
- Coords.AtLeast2d: rows of different lengths raise, as numpy 1.24 and later do (and the
  source's `np.NaN` needs numpy before 2.0). Older numpy builds a one-row object array
  instead; that behaviour is not modelled.
- Coords.KeyMessage: the quoting Python's `repr` gives a quote or backslash character in
  the `int()` message is not modelled.
- Coords.ClassifyHemisphere: points are real triples. Points whose x is NaN, or that are
  not 3 wide, are not modelled.
- Coords.ShiftOrigin: the same real triples. The list update of `get_M1` (mirroring `x` in
  place) is modelled as a value update.
