# music_generator corpus filter, modelled in Dafny

This project models the corpus-filtering pipeline of `data_clean/preprocessing.py` in
BigBen-L/music_generator. The pipeline reads a directory of MIDI files and turns it into one
training matrix, in five stages:

1. **Loader.** `Preprocess._file_filter` keeps every file that parses and has exactly one
   key-signature change and exactly one time-signature change.
2. **Report.** `generate_midi_files_report` records, per kept track, its tempo, its key and
   the lowest and highest note pitch (`_get_min_max_pitch`). Keys are tallied with `Counter`.
3. **Aggregation.** `FileReport.aggregation_report` picks the most frequent key
   (`get_most_freq_value`, a stable descending sort) and the pitch bounds. The bounds are
   the means of the per-track lowest and highest pitches, truncated by `int()`.
4. **Range filter.** A track passes when its tempo is in the open interval
   (mean - std, mean + std) (`_is_in_tempo_range`). Its lowest and highest pitch must also
   lie in the closed interval [low, high] of the bounds (`_is_in_pitch_range`).
5. **Assembly.** `piano_roll_filter` cuts each passing track's 128-row piano roll to the
   rows low..high. It stacks the slices along time with `numpy.hstack` and returns the
   transpose.

Files:
- `basics.dfy` (module `Basics`): the Option and Result types. The `Error` type lists the
  four exceptions the pipeline can raise once I/O is out of the picture.
- `seqs.dfy` (module `Seqs`): sums, `min`/`max`, the flattening list comprehension,
  first-occurrence index, and order-preserving filtering.
- `matrices.dfy` (module `Matrices`): numpy row slicing, `hstack` and `.T` over
  rectangular integer matrices.
- `tracks.dfy` (module `Tracks`): a parsed file as a record, and `_get_min_max_pitch`.
- `file_report.dfy` (module `FileReports`): `Counter`, `get_most_freq_value` and
  `aggregation_report`.
- `preprocessing.dfy` (module `Preprocessing`): the stages as specification functions. It
  also holds the class `Preprocess`, whose methods build `pms`, `report` and the
  piano-roll list with loops. Each method is proved equal to its specification function.

A parsed file is a `Track` with these fields:
- `instruments`: the note pitches of each instrument;
- `tempo`: the value of `estimate_tempo()`;
- `keyNumbers`: the key number of each key-signature change;
- `timeSignatureChanges`: the number of time-signature changes;
- `roll`: the value of `get_piano_roll()`.

The parser's guarantees are the predicate `WellFormed`: pitches in 0..127, and a
rectangular roll with 128 rows.

Where the source's own comments and its code disagree, the model follows the code:
- The comments at `data_clean/preprocessing.py:17-18`, `:138` and `:147` say the loader keeps
  files with one tempo and one key. The test at `:148` counts key-signature changes and
  time-signature changes, and never looks at tempo changes. The model keeps what `:148`
  keeps.
- An empty corpus fails at different points depending on the stage:
  - With no file loaded at all, `get_most_freq_value` takes `[0]` of an empty list (`:60`),
    an `IndexError`. The model calls this `EmptyKeyCount`.
  - With files loaded but none passing the range filter, `numpy.hstack` of an empty list
    (`:117`) raises a `ValueError`. The model calls this `NothingToStack`.

## Model

| member | source | states |
|---|---|---|
| Seqs.Min | data_clean/preprocessing.py:96 | `min` of a non-empty list is one of its elements and is at most every element |
| Seqs.Max | data_clean/preprocessing.py:96 | `max` of a non-empty list is one of its elements and is at least every element |
| Seqs.Flatten | data_clean/preprocessing.py:93-95 | the comprehension over instruments and notes holds exactly the pitches of some instrument, and is empty iff every instrument is empty |
| Seqs.Filter | data_clean/preprocessing.py:105-116 | appending what passes never yields more elements than the input |
| Seqs.FilterMembers | data_clean/preprocessing.py:105-116 | every element of the filtered list is an input element the test admits |
| Seqs.FilterPlacement | data_clean/preprocessing.py:105-116 | an admitted element i sits at position \|Filter(s[..i])\| of the result, so admitted elements keep their order |
| Seqs.FilterOrigin | data_clean/preprocessing.py:105-116 | every position k of the result holds an admitted element i with \|Filter(s[..i])\| == k, so nothing else gets in |
| Matrices.SliceRows | data_clean/preprocessing.py:114-115 | `roll[left:right + 1]` has right - left + 1 rows, row k is row left + k, and the column count is kept |
| Matrices.HStack | data_clean/preprocessing.py:117 | `hstack` fails exactly on an empty list; otherwise it keeps the row count, is rectangular, and its width is the sum of the widths |
| Matrices.HStackAt | data_clean/preprocessing.py:117 | column c of block k lands at column TotalWidth(blocks before k) + c, on every row |
| Matrices.Transpose | data_clean/preprocessing.py:118 | `.T` swaps the row and column counts and maps entry [i][j] to [j][i] |
| Matrices.TransposeTwice | data_clean/preprocessing.py:118 | transposing twice gives back a non-empty rectangular matrix |
| Tracks.MinMaxPitch | data_clean/preprocessing.py:89-96 | fails, with the empty-track error, iff the track has no notes (`min` of an empty list) |
| Tracks.MinMaxPitchBounds | data_clean/preprocessing.py:89-96 | for a track with notes both values are note pitches, low <= high, and every note lies between them |
| Tracks.PitchesOfWellFormed | data_clean/preprocessing.py:89-96 | for a track of MIDI pitches, 0 <= lowest <= highest <= 127 |
| FileReports.Bump | data_clean/preprocessing.py:85-86 | counting one more key keeps keys distinct: a new key is appended with count 1, an existing key's count goes up by one |
| FileReports.Tally | data_clean/preprocessing.py:85-86 | `dict(Counter(keys))` has distinct keys |
| FileReports.TallyCounts | data_clean/preprocessing.py:85-86 | each entry's key occurs in the key list, and its count is the number of its occurrences |
| FileReports.TallyCovers | data_clean/preprocessing.py:85-86 | each key of the list has an entry |
| FileReports.TallyExtends | data_clean/preprocessing.py:85-86 | counting one more key keeps the earlier entries' keys in place, and adds an entry only for a key not met before, at the end |
| FileReports.TallyFirstSeenOrder | data_clean/preprocessing.py:85-86 | of two entries, the earlier one's key is met first in the list, as a dict keeps insertion order |
| FileReports.InsertByRank | data_clean/preprocessing.py:60 | one insertion step of the stable sort is a permutation that puts the item or the old head first |
| FileReports.SortedByRankPairs | data_clean/preprocessing.py:60 | a list in which each item ranks no lower than the next has every item ranking no lower than any later one |
| FileReports.InsertKeepsSorted | data_clean/preprocessing.py:60 | inserting into a list sorted by count keeps it sorted |
| FileReports.SortByCount | data_clean/preprocessing.py:60 | `sorted(..., key=count, reverse=...)` is a permutation of the items, ordered by count |
| FileReports.FirstBestIndex | data_clean/preprocessing.py:60 | picks an item of best rank, and every earlier item ranks strictly lower |
| FileReports.SortHead | data_clean/preprocessing.py:60 | the head of the stable sort is the first item of best rank |
| FileReports.MostFreqValue | data_clean/preprocessing.py:59-60 | `get_most_freq_value` fails iff the count is empty; otherwise it returns the key of the first item of best rank |
| FileReports.MostFrequentKey | data_clean/preprocessing.py:59-60 | over the count of a non-empty key list: the result occurs in the list, no key occurs more often, and among keys that occur as often it is the one met first |
| FileReports.TruncDivMonotone | data_clean/preprocessing.py:51-52 | truncating division by a positive count is monotone in the dividend |
| FileReports.TruncMeanMonotone | data_clean/preprocessing.py:51-52 | if each lowest pitch is at most the matching highest pitch, then int(mean(lowest)) <= int(mean(highest)) |
| FileReports.TruncMeanWithin | data_clean/preprocessing.py:51-52 | the truncated mean of values in [lo, hi] stays in [lo, hi] |
| FileReports.TruncDiv | data_clean/preprocessing.py:51-52 | `int()` of a quotient truncates toward zero: for a non-negative dividend the result q is its floor (n * q <= a < n * q + n); for a negative one, its ceiling |
| FileReports.TruncMean | data_clean/preprocessing.py:51-52 | `int(np.array(xs).mean())` of a list with a non-negative sum is non-negative, and the length times it is at most the sum and exceeds the sum minus the length |
| FileReports.TruncMeanFloor | data_clean/preprocessing.py:51-52 | over non-negative values the truncated mean m is the floor of the mean: \|xs\| * m <= Sum(xs) < \|xs\| * (m + 1) |
| FileReports.FileReport.AggregationReport | data_clean/preprocessing.py:43-53 | fails iff the key count or a pitch list is empty, with the key-count error first; the key is the first item of best count; the bounds are int() of the mean of the lowest pitches and of the highest pitches |
| FileReports.PitchBoundsOrdered | data_clean/preprocessing.py:51-52 | when every lowest pitch is at most its highest and all lie in [0, hi], the bounds satisfy 0 <= low <= high <= hi |
| Preprocessing.Loaded | data_clean/preprocessing.py:136-151 | every loaded track has one key and one time signature, and well-formed parses give well-formed tracks |
| Preprocessing.LoadedPlacement | data_clean/preprocessing.py:140-151 | a file that parses and has one key and one time signature is kept, at position \|Loaded(files before it)\|, so traversal order is kept |
| Preprocessing.LoadedOrigin | data_clean/preprocessing.py:140-151 | every loaded track comes from such a file, at that position |
| Preprocessing.LoadedMembers | data_clean/preprocessing.py:140-151 | a track is loaded iff it parsed from some file and has one key and one time signature; failed parses are dropped without error |
| Preprocessing.Keeps | data_clean/preprocessing.py:145-151 | the keep test: the file parsed and has exactly one key-signature and one time-signature change; LoadedMembers states what it admits |
| Preprocessing.Tempos | data_clean/preprocessing.py:78-79 | one tempo per track, entry i being track i's tempo |
| Preprocessing.Keys | data_clean/preprocessing.py:80-81 | one key per track, entry i being the number of track i's first key-signature change |
| Preprocessing.MinPitches | data_clean/preprocessing.py:82-84 | one lowest pitch per track, entry i being track i's lowest note pitch |
| Preprocessing.MaxPitches | data_clean/preprocessing.py:82-83 | one highest pitch per track, entry i being track i's highest note pitch |
| Preprocessing.KeyOf | data_clean/preprocessing.py:80 | the key of a loaded track is the key number of its only key-signature change |
| Preprocessing.ReportListsStep | data_clean/preprocessing.py:77-84 | one loop iteration appends the track's tempo, key, lowest and highest pitch at the end of the four lists |
| Preprocessing.ReportOf | data_clean/preprocessing.py:69-87 | the report exists iff every track has notes, and otherwise fails with the empty-track error; it has one tempo, one lowest and one highest pitch per track |
| Preprocessing.ReportFails | data_clean/preprocessing.py:82 | a track without notes makes the report fail with the empty-track error |
| Preprocessing.ReportAt | data_clean/preprocessing.py:74-84 | entry i holds track i's tempo, and a lowest and highest pitch that are note pitches of track i and bound all of its notes |
| Preprocessing.ReportKeys | data_clean/preprocessing.py:80-86 | the key count counts each key exactly as often as tracks carry it, and has every track's key |
| Preprocessing.ReportPitchesInRange | data_clean/preprocessing.py:82-84 | every reported lowest and highest pitch lies in [0, 127], lowest first |
| Preprocessing.ReportAggregates | data_clean/preprocessing.py:51-53 | aggregating the report of well-formed tracks fails only on an empty corpus, on the key count, and otherwise gives 0 <= low <= high <= 127 |
| Preprocessing.PitchBounds | data_clean/preprocessing.py:102-103 | the aggregation succeeds iff the corpus is non-empty and every track has notes; an empty corpus fails on the key count; the bounds satisfy 0 <= low <= high <= 127 (PitchBoundsValues gives their values) |
| Preprocessing.PitchBoundsValues | data_clean/preprocessing.py:51-52 | when the aggregation succeeds the corpus is non-empty, every track has notes, and the bounds are int() of the mean of the tracks' lowest pitches and of their highest pitches |
| Preprocessing.CorpusKey | data_clean/preprocessing.py:59-60 | the selected key is a key of some track, no key is carried by more tracks, and ties go to the key met first |
| Preprocessing.InTempoRange | data_clean/preprocessing.py:120-126 | true iff the tempo is strictly closer to the mean than std, so both ends are excluded and std <= 0 admits nothing |
| Preprocessing.PitchRangeHoldsAllNotes | data_clean/preprocessing.py:128-134 | the closed-interval check on the pitch bounds holds iff every note of the track lies in [left, right] |
| Preprocessing.InPitchRange | data_clean/preprocessing.py:128-134 | `_is_in_pitch_range`: the lowest pitch is at least the left bound and the highest at most the right one; PitchRangeHoldsAllNotes states what it means for a track |
| Preprocessing.Passes | data_clean/preprocessing.py:105-113 | the two checks of the range filter on one track; PassesAllNotes states what it admits |
| Preprocessing.PassesAllNotes | data_clean/preprocessing.py:105-134 | a track passes iff it has notes, its tempo is strictly within std of the mean, and all of its notes lie in [left, right] |
| Preprocessing.Kept | data_clean/preprocessing.py:105-116 | when all tracks are well-formed, so are the kept ones |
| Preprocessing.KeptPlacement | data_clean/preprocessing.py:105-116 | a track passing both checks is kept, at position \|Kept(tracks before it)\| |
| Preprocessing.KeptOrigin | data_clean/preprocessing.py:105-116 | every kept track passes both checks and sits at that position |
| Preprocessing.Slices | data_clean/preprocessing.py:114-116 | every collected slice is rows left..right of a 128-row roll, rectangular, with right - left + 1 rows |
| Preprocessing.SlicesFrames | data_clean/preprocessing.py:114-117 | the slices together span as many columns as the kept rolls have time steps |
| Preprocessing.KeptSlicesStep | data_clean/preprocessing.py:105-116 | one loop iteration appends the track's slice iff it passes both checks |
| Preprocessing.Assemble | data_clean/preprocessing.py:114-118 | stacking fails exactly when no roll is left |
| Preprocessing.SlicesOffset | data_clean/preprocessing.py:114-117 | the slices before roll k span as many columns as the rolls before k have time steps |
| Preprocessing.SliceRowAt | data_clean/preprocessing.py:114-115 | row p of slice k is row low + p of roll k, a 128-row roll |
| Preprocessing.StackedAt | data_clean/preprocessing.py:114-117 | time step f of roll k at pitch left + p is column Frames(rolls before k) + f of stacked row p |
| Preprocessing.AssembleAt | data_clean/preprocessing.py:114-118 | the same entry is at [Frames(rolls before k) + f][p] after the transpose |
| Preprocessing.AssembleShape | data_clean/preprocessing.py:114-118 | the result has one row per time step and right - left + 1 columns |
| Preprocessing.PianoRollAssembled | data_clean/preprocessing.py:101-118 | once the report and aggregation succeed, the result is the slicing, stacking and transposing of the tracks that pass both checks, within bounds 0 <= low <= high <= 127 |
| Preprocessing.PianoRoll | data_clean/preprocessing.py:98-118 | `piano_roll_filter` as the report, the aggregation, the range filter and the assembly in turn, failing with the first failure; PianoRollOutcome, PianoRollShape and PianoRollAt state its outcome, shape and entries |
| Preprocessing.PianoRollOutcome | data_clean/preprocessing.py:98-118 | `piano_roll_filter` fails with the empty-track error iff some track has no notes; with the key-count error on an empty corpus; with the hstack error iff the aggregation succeeds and no track passes; never with the NaN-mean error; it succeeds iff the aggregation succeeds and some track passes |
| Preprocessing.PianoRollShape | data_clean/preprocessing.py:98-118 | the matrix has one row per time step of the kept tracks and high - low + 1 columns |
| Preprocessing.PianoRollAt | data_clean/preprocessing.py:98-118 | entry [Frames(kept before k) + f][p] is time step f of kept track k at pitch low + p: rolls follow one another in kept order |
| Preprocessing.Preprocess.constructor | data_clean/preprocessing.py:64-67 | after construction the held tracks are the loader's output, and all of them are well-formed with one key and one time signature |
| Preprocessing.Preprocess.FileFilter | data_clean/preprocessing.py:136-151 | the append loop leaves `pms` equal to the loader's output, and every held track is well-formed with one key and one time signature |
| Preprocessing.Preprocess.GenerateMidiFilesReport | data_clean/preprocessing.py:69-87 | returns the report of the held tracks and stores it; on a track without notes it fails and the stored report is unchanged |
| Preprocessing.Preprocess.CollectReport | data_clean/preprocessing.py:74-86 | the four-list loop yields exactly the report of the given tracks, failing on the first track without notes |
| Preprocessing.Preprocess.PianoRollFilter | data_clean/preprocessing.py:98-118 | returns exactly the specified piano-roll outcome for the held tracks, and stores the regenerated report |
| Preprocessing.Preprocess.StackInRange | data_clean/preprocessing.py:104-118 | the slicing loop, hstack and transpose give the assembly of the tracks that pass both checks |

## Left out

- MIDI decoding: each file's parse is a given `ParseOutcome`. Any exception of
  `pretty_midi.PrettyMIDI` is `ParseFailed`.
- `estimate_tempo` internals: the tempo is a field of the track, so the model's
  `estimate_tempo` never raises. The library's own failure on a file with too few onsets is
  not modelled.
- `get_piano_roll` internals: the roll is a field of the track, as a rectangular 128-row
  integer matrix. The library returns a float array. The pipeline only copies its entries,
  so the element type does not matter.
- Directory walk, `isdir`, `abspath` and the argument check (`_cli_arg_parser`): these are
  file-system and process I/O. The constructor takes the parse outcomes in traversal order.
- The `__main__` block (logging, printing, exit status), `FileReport.plots` and the plotting
  imports.
- Preprocessing.Preprocess.PianoRollFilter: takes the tempo mean and standard deviation as
  parameters instead of computing them with numpy. Floating-point mean and deviation are
  not modelled.
- FileReports.FileReport.AggregationReport: returns only the most frequent key and the two
  pitch bounds. The tempo mean and deviation it also returns are the parameters above. Over
  an empty tempo list numpy yields NaN without raising, so leaving them out loses no error
  path.
- FileReports.TruncMean: computed on the exact rational mean. `int(np.mean(...))` rounds the
  float sum first, which only matters for sums far beyond 2^53.
- FileReports.MostFrequentKey: proved for `reverse=True` only, the value the pipeline uses.
  `MostFreqValue` and `SortByCount` model both directions.
- The source's attribute `report` does not exist until the first report; the model starts it
  as `None`.
- Preprocessing.PianoRollShape: a well-formed roll may have no time steps. When every kept
  roll has none, numpy's `hstack(...).T` has shape (0, high - low + 1). The model's result,
  a sequence of rows, is then empty, so it carries no column count and the column clause
  says nothing in that case.
- Preprocessing.Preprocess.CollectReport: the loop of `generate_midi_files_report` is a
  separate method, so that each method's proof stays small. It changes no state.
- Preprocessing.Preprocess.StackInRange: the slicing loop of `piano_roll_filter` is a
  separate method, so that each method's proof stays small. It changes no state.
