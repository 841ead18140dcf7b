/** The filtering pipeline: load, report, aggregate, range-filter, assemble. */
module Preprocessing {
  import opened Basics
  import opened Seqs
  import opened Matrices
  import opened Tracks
  import opened FileReports

  // ----- Loader -----

  /** The loader keeps a file iff it parsed and has one key and one time signature. */
  predicate Keeps(o: ParseOutcome)
  {
    o.Parsed? && SingleSignature(o.track)
  }

  /** The tracks the loader keeps, in traversal order. */
  function Loaded(files: seq<ParseOutcome>): (r: seq<Track>)
    ensures forall k :: 0 <= k < |r| ==> SingleSignature(r[k])
    ensures (forall i :: 0 <= i < |files| && files[i].Parsed? ==> WellFormed(files[i].track)) ==>
              forall k :: 0 <= k < |r| ==> Retained(r[k])
  {
    if files == [] then []
    else
      var last := files[|files| - 1];
      Loaded(files[..|files| - 1]) + (if Keeps(last) then [last.track] else [])
  }

  /** A file i that parses and has one key and one time signature lands at position
      |Loaded(files[..i])| of the loaded tracks. */
  lemma {:induction false} LoadedPlacement(files: seq<ParseOutcome>, i: nat)
    requires i < |files| && Keeps(files[i])
    ensures |Loaded(files[..i])| < |Loaded(files)|
    ensures Loaded(files)[|Loaded(files[..i])|] == files[i].track
  {
    var n := |files|;
    var front := files[..n - 1];
    if i < n - 1 {
      LoadedPlacement(front, i);
      assert files[..i] == front[..i];
      var r, rf := Loaded(files), Loaded(front);
      assert r == rf + (if Keeps(files[n - 1]) then [files[n - 1].track] else []);
    } else {
      assert files[..i] == front;
    }
  }

  /** Position k of the loaded tracks holds the track of a file i that Keeps accepts, with
      |Loaded(files[..i])| == k: with LoadedPlacement, the loader keeps exactly the accepted
      files, in their order. */
  lemma {:induction false} LoadedOrigin(files: seq<ParseOutcome>, k: nat)
    requires k < |Loaded(files)|
    ensures exists i :: 0 <= i < |files| && Keeps(files[i]) && |Loaded(files[..i])| == k &&
              Loaded(files)[k] == files[i].track
  {
    var n := |files|;
    var front := files[..n - 1];
    var r, rf := Loaded(files), Loaded(front);
    assert r == rf + (if Keeps(files[n - 1]) then [files[n - 1].track] else []);
    if k < |rf| {
      LoadedOrigin(front, k);
      var i :| 0 <= i < |front| && Keeps(front[i]) && |Loaded(front[..i])| == k && rf[k] == front[i].track;
      assert files[..i] == front[..i] && files[i] == front[i];
      assert r[k] == rf[k];
      assert Keeps(files[i]) && |Loaded(files[..i])| == k && r[k] == files[i].track;
    } else {
      assert files[..n - 1] == front;
      assert Keeps(files[n - 1]) && |Loaded(files[..n - 1])| == k && r[k] == files[n - 1].track;
    }
  }

  /** A track is loaded iff it parsed from some file and has one key and one time signature. */
  lemma LoadedMembers(files: seq<ParseOutcome>)
    ensures forall t :: t in Loaded(files) <==> Parsed(t) in files && SingleSignature(t)
  {
    forall t ensures t in Loaded(files) <==> Parsed(t) in files && SingleSignature(t) {
      if t in Loaded(files) {
        var k :| 0 <= k < |Loaded(files)| && Loaded(files)[k] == t;
        LoadedOrigin(files, k);
        var i :| 0 <= i < |files| && Keeps(files[i]) && |Loaded(files[..i])| == k &&
          Loaded(files)[k] == files[i].track;
        assert files[i] == Parsed(t);
      }
      if Parsed(t) in files && SingleSignature(t) {
        var i :| 0 <= i < |files| && files[i] == Parsed(t);
        LoadedPlacement(files, i);
      }
    }
  }

  // ----- Report -----

  /** key_signature_changes[0].key_number of a retained track. */
  function KeyOf(t: Track): (k: int)
    requires Retained(t)
    ensures t.keyNumbers == [k]
  {
    t.keyNumbers[0]
  }

  function Tempos(ts: seq<Track>): (r: seq<real>)
    ensures |r| == |ts| && forall i :: 0 <= i < |ts| ==> r[i] == ts[i].tempo
  {
    if ts == [] then [] else Tempos(ts[..|ts| - 1]) + [ts[|ts| - 1].tempo]
  }

  function Keys(ts: seq<Track>): (r: seq<int>)
    requires forall i :: 0 <= i < |ts| ==> Retained(ts[i])
    ensures |r| == |ts| && forall i :: 0 <= i < |ts| ==> r[i] == KeyOf(ts[i])
  {
    if ts == [] then [] else Keys(ts[..|ts| - 1]) + [KeyOf(ts[|ts| - 1])]
  }

  function MinPitches(ts: seq<Track>): (r: seq<int>)
    requires forall i :: 0 <= i < |ts| ==> HasNotes(ts[i])
    ensures |r| == |ts| && forall i :: 0 <= i < |ts| ==> r[i] == MinMaxPitch(ts[i]).value.0
  {
    if ts == [] then [] else MinPitches(ts[..|ts| - 1]) + [MinMaxPitch(ts[|ts| - 1]).value.0]
  }

  function MaxPitches(ts: seq<Track>): (r: seq<int>)
    requires forall i :: 0 <= i < |ts| ==> HasNotes(ts[i])
    ensures |r| == |ts| && forall i :: 0 <= i < |ts| ==> r[i] == MinMaxPitch(ts[i]).value.1
  {
    if ts == [] then [] else MaxPitches(ts[..|ts| - 1]) + [MinMaxPitch(ts[|ts| - 1]).value.1]
  }

  /** One more track adds its tempo, key and pitch bounds at the end of each list. */
  lemma ReportListsStep(ts: seq<Track>, i: nat)
    requires forall j :: 0 <= j < |ts| ==> Retained(ts[j])
    requires i < |ts| && MinMaxPitch(ts[i]).Ok? && forall j :: 0 <= j < i ==> HasNotes(ts[j])
    ensures forall j :: 0 <= j <= i ==> HasNotes(ts[j])
    ensures Tempos(ts[..i + 1]) == Tempos(ts[..i]) + [ts[i].tempo]
    ensures Keys(ts[..i + 1]) == Keys(ts[..i]) + [KeyOf(ts[i])]
    ensures MinPitches(ts[..i + 1]) == MinPitches(ts[..i]) + [MinMaxPitch(ts[i]).value.0]
    ensures MaxPitches(ts[..i + 1]) == MaxPitches(ts[..i]) + [MinMaxPitch(ts[i]).value.1]
  {
    assert ts[..i + 1][..i] == ts[..i];
  }

  /** generate_midi_files_report: one tempo, key, lowest and highest pitch per track; it
      raises on the first track without notes. */
  function ReportOf(ts: seq<Track>): (r: Result<FileReport>)
    requires forall i :: 0 <= i < |ts| ==> Retained(ts[i])
    ensures r.Ok? <==> forall i :: 0 <= i < |ts| ==> HasNotes(ts[i])
    ensures r.Err? ==> r.error == EmptyTrack
    ensures r.Ok? ==> |r.value.tempos| == |r.value.minPitch| == |r.value.maxPitch| == |ts|
  {
    if exists i :: 0 <= i < |ts| && !HasNotes(ts[i]) then Err(EmptyTrack)
    else Ok(FileReport(Tempos(ts), Tally(Keys(ts)), MinPitches(ts), MaxPitches(ts)))
  }

  /** A track without notes makes the report fail. */
  lemma ReportFails(ts: seq<Track>, i: nat)
    requires forall j :: 0 <= j < |ts| ==> Retained(ts[j])
    requires i < |ts| && !HasNotes(ts[i])
    ensures ReportOf(ts) == Err(EmptyTrack)
  {
  }

  /** Entry i of the report holds track i's tempo and a lowest and a highest pitch that are
      pitches of its notes and bound all of them. */
  lemma ReportAt(ts: seq<Track>, i: nat)
    requires forall j :: 0 <= j < |ts| ==> Retained(ts[j])
    requires ReportOf(ts).Ok? && i < |ts|
    ensures var rep := ReportOf(ts).value;
      && rep.tempos[i] == ts[i].tempo
      && IsNote(ts[i], rep.minPitch[i]) && IsNote(ts[i], rep.maxPitch[i])
      && forall j, n :: 0 <= j < |ts[i].instruments| && 0 <= n < |ts[i].instruments[j]| ==>
           rep.minPitch[i] <= ts[i].instruments[j][n] <= rep.maxPitch[i]
  {
    assert HasNotes(ts[i]);
    MinMaxPitchBounds(ts[i]);
  }

  /** The report's key count counts each key exactly as often as tracks carry it, and holds
      every track's key. */
  lemma ReportKeys(ts: seq<Track>)
    requires forall j :: 0 <= j < |ts| ==> Retained(ts[j])
    requires ReportOf(ts).Ok?
    ensures forall e :: e in ReportOf(ts).value.freqKey ==> e.count == multiset(Keys(ts))[e.key] > 0
    ensures forall i :: 0 <= i < |ts| ==> HasKey(ReportOf(ts).value.freqKey, KeyOf(ts[i]))
  {
    var keys := Keys(ts);
    var freq := ReportOf(ts).value.freqKey;
    assert freq == Tally(keys);
    forall e | e in freq
      ensures e.count == multiset(keys)[e.key] > 0
    {
      var i :| 0 <= i < |freq| && freq[i] == e;
      TallyCounts(keys, i);
    }
    forall i | 0 <= i < |ts|
      ensures HasKey(freq, KeyOf(ts[i]))
    {
      TallyCovers(keys, keys[i]);
    }
  }

  /** Over well-formed tracks every reported pitch lies in [0, 127], lowest before highest. */
  lemma ReportPitchesInRange(ts: seq<Track>)
    requires forall j :: 0 <= j < |ts| ==> Retained(ts[j])
    requires ReportOf(ts).Ok?
    ensures var rep := ReportOf(ts).value;
      forall i :: 0 <= i < |ts| ==> 0 <= rep.minPitch[i] <= rep.maxPitch[i] < PitchCount
  {
    forall i | 0 <= i < |ts|
      ensures 0 <= ReportOf(ts).value.minPitch[i] <= ReportOf(ts).value.maxPitch[i] < PitchCount
    {
      assert Retained(ts[i]) && HasNotes(ts[i]);
      PitchesOfWellFormed(ts[i]);
    }
  }

  // ----- Aggregates -----

  /** The aggregates of the corpus report, when both the report and the aggregation succeed;
      over well-formed tracks the pitch bounds satisfy 0 <= low <= high <= 127, so they select
      a non-empty band of piano-roll rows. */
  function PitchBounds(ts: seq<Track>): (r: Result<Aggregate>)
    requires forall i :: 0 <= i < |ts| ==> Retained(ts[i])
    ensures r.Ok? <==> ts != [] && forall i :: 0 <= i < |ts| ==> HasNotes(ts[i])
    ensures ts == [] ==> r == Err(EmptyKeyCount)
    ensures r != Err(EmptyMean)
    ensures r.Ok? ==> 0 <= r.value.lowPitch <= r.value.highPitch < PitchCount
  {
    match ReportOf(ts)
    case Err(e) => Err(e)
    case Ok(rep) =>
      ReportAggregates(ts);
      rep.AggregationReport()
  }

  /** The pitch bounds are int() of the mean of the tracks' lowest pitches and of the mean
      of their highest pitches. */
  lemma PitchBoundsValues(ts: seq<Track>)
    requires forall i :: 0 <= i < |ts| ==> Retained(ts[i])
    requires PitchBounds(ts).Ok?
    ensures ts != [] && forall i :: 0 <= i < |ts| ==> HasNotes(ts[i])
    ensures PitchBounds(ts).value.lowPitch == TruncMean(MinPitches(ts))
    ensures PitchBounds(ts).value.highPitch == TruncMean(MaxPitches(ts))
  {
    assert ReportOf(ts).Ok?;
  }

  /** Aggregating a report of well-formed tracks fails only on an empty corpus, and then on
      the key count; the bounds it draws lie in [0, 127], low first. */
  lemma ReportAggregates(ts: seq<Track>)
    requires forall i :: 0 <= i < |ts| ==> Retained(ts[i])
    requires ReportOf(ts).Ok?
    ensures var a := ReportOf(ts).value.AggregationReport();
      && (a.Ok? <==> ts != [])
      && (ts == [] ==> a == Err(EmptyKeyCount))
      && (a.Ok? ==> 0 <= a.value.lowPitch <= a.value.highPitch < PitchCount)
  {
    var rep := ReportOf(ts).value;
    if ts != [] {
      ReportPitchesInRange(ts);
      PitchBoundsOrdered(rep, PitchCount - 1);
    }
  }

  /** The key the aggregation selects is a key of some track, no key is carried by more
      tracks, and among keys carried as often it is the one met first. */
  lemma CorpusKey(ts: seq<Track>)
    requires forall i :: 0 <= i < |ts| ==> Retained(ts[i])
    requires PitchBounds(ts).Ok?
    ensures var k := PitchBounds(ts).value.mostFreqKey;
      && k in Keys(ts)
      && (forall x :: x in Keys(ts) ==> multiset(Keys(ts))[x] <= multiset(Keys(ts))[k])
      && (forall x :: x in Keys(ts) && multiset(Keys(ts))[x] == multiset(Keys(ts))[k] ==>
            FirstIndex(Keys(ts), k) <= FirstIndex(Keys(ts), x))
  {
    assert Keys(ts)[0] in Keys(ts);
    MostFrequentKey(Keys(ts));
  }

  // ----- Range filter -----

  function Distance(a: real, b: real): real
  {
    if a >= b then a - b else b - a
  }

  /** _is_in_tempo_range: the open interval (mean - std, mean + std). */
  function InTempoRange(tempo: real, mean: real, std: real): (r: bool)
    ensures r <==> Distance(tempo, mean) < std
    ensures r ==> std > 0.0
  {
    tempo > mean - std && tempo < mean + std
  }

  /** _is_in_pitch_range: the closed interval [left, right] holds both pitch bounds. */
  function InPitchRange(lowPitch: int, highPitch: int, left: int, right: int): bool
  {
    lowPitch >= left && highPitch <= right
  }

  /** A track passes the pitch check iff every one of its notes lies in [left, right]. */
  lemma PitchRangeHoldsAllNotes(t: Track, left: int, right: int)
    requires HasNotes(t)
    ensures InPitchRange(MinMaxPitch(t).value.0, MinMaxPitch(t).value.1, left, right) <==>
      forall i, j :: 0 <= i < |t.instruments| && 0 <= j < |t.instruments[i]| ==>
        left <= t.instruments[i][j] <= right
  {
    MinMaxPitchBounds(t);
    var (lo, hi) := MinMaxPitch(t).value;
    if forall i, j :: 0 <= i < |t.instruments| && 0 <= j < |t.instruments[i]| ==>
         left <= t.instruments[i][j] <= right
    {
      var i :| 0 <= i < |t.instruments| && lo in t.instruments[i];
      var j :| 0 <= j < |t.instruments[i]| && t.instruments[i][j] == lo;
      var i' :| 0 <= i' < |t.instruments| && hi in t.instruments[i'];
      var j' :| 0 <= j' < |t.instruments[i']| && t.instruments[i'][j'] == hi;
    }
  }

  /** Both checks of the range filter. A track without notes never reaches them: the report
      has raised before. */
  predicate Passes(t: Track, mean: real, std: real, left: int, right: int)
  {
    match MinMaxPitch(t)
    case Err(_) => false
    case Ok((low, high)) => InTempoRange(t.tempo, mean, std) && InPitchRange(low, high, left, right)
  }

  /** A track passes iff it has notes, its tempo is strictly within std of the mean, and every
      one of its notes lies in [left, right]. */
  lemma PassesAllNotes(t: Track, mean: real, std: real, left: int, right: int)
    ensures Passes(t, mean, std, left, right) <==>
      && HasNotes(t)
      && Distance(t.tempo, mean) < std
      && forall i, j :: 0 <= i < |t.instruments| && 0 <= j < |t.instruments[i]| ==>
           left <= t.instruments[i][j] <= right
  {
    if HasNotes(t) {
      PitchRangeHoldsAllNotes(t, left, right);
    }
  }

  function Admits(mean: real, std: real, left: int, right: int): Track -> bool
  {
    t => Passes(t, mean, std, left, right)
  }

  /** The tracks the range filter admits, in input order. */
  function Kept(ts: seq<Track>, mean: real, std: real, left: int, right: int): (r: seq<Track>)
    ensures (forall i :: 0 <= i < |ts| ==> Retained(ts[i])) ==> forall k :: 0 <= k < |r| ==> Retained(r[k])
  {
    FilterMembers(ts, Admits(mean, std, left, right));
    Filter(ts, Admits(mean, std, left, right))
  }

  /** A track passing both checks lands at position |Kept(ts[..i])| of the kept tracks. */
  lemma KeptPlacement(ts: seq<Track>, mean: real, std: real, left: int, right: int, i: nat)
    requires i < |ts| && Passes(ts[i], mean, std, left, right)
    ensures |Kept(ts[..i], mean, std, left, right)| < |Kept(ts, mean, std, left, right)|
    ensures Kept(ts, mean, std, left, right)[|Kept(ts[..i], mean, std, left, right)|] == ts[i]
  {
    FilterPlacement(ts, Admits(mean, std, left, right), i);
  }

  /** Position k of the kept tracks holds a track i passing both checks, with
      |Kept(ts[..i])| == k: the range filter keeps exactly those tracks, in their order. */
  lemma KeptOrigin(ts: seq<Track>, mean: real, std: real, left: int, right: int, k: nat)
    requires k < |Kept(ts, mean, std, left, right)|
    ensures exists i :: 0 <= i < |ts| && Passes(ts[i], mean, std, left, right) &&
              |Kept(ts[..i], mean, std, left, right)| == k && Kept(ts, mean, std, left, right)[k] == ts[i]
  {
    FilterOrigin(ts, Admits(mean, std, left, right), k);
  }

  // ----- Assembly -----

  /** Every kept piano roll cut to rows left..right. */
  function Slices(ks: seq<Track>, left: nat, right: nat): (r: seq<Matrix>)
    requires left <= right < PitchCount
    requires forall k :: 0 <= k < |ks| ==> Retained(ks[k])
    ensures |r| == |ks|
    ensures forall k :: 0 <= k < |r| ==>
              |ks[k].roll| == PitchCount && r[k] == SliceRows(ks[k].roll, left, right)
    ensures forall k :: 0 <= k < |r| ==> Rect(r[k]) && |r[k]| == right - left + 1
  {
    if ks == [] then []
    else
      assert Retained(ks[|ks| - 1]);
      Slices(ks[..|ks| - 1], left, right) + [SliceRows(ks[|ks| - 1].roll, left, right)]
  }

  /** The number of time steps of a list of tracks: their piano rolls' column counts, summed. */
  function Frames(ks: seq<Track>): nat
  {
    if ks == [] then 0 else Frames(ks[..|ks| - 1]) + Width(ks[|ks| - 1].roll)
  }

  /** Slicing rows keeps every roll's column count, so the slices span Frames(ks) columns. */
  lemma {:induction false} SlicesFrames(ks: seq<Track>, left: nat, right: nat)
    requires left <= right < PitchCount
    requires forall k :: 0 <= k < |ks| ==> Retained(ks[k])
    ensures TotalWidth(Slices(ks, left, right)) == Frames(ks)
  {
    if ks != [] {
      var n := |ks|;
      var s := Slices(ks, left, right);
      SlicesFrames(ks[..n - 1], left, right);
      assert s[..n - 1] == Slices(ks[..n - 1], left, right);
      assert Retained(ks[n - 1]);
    }
  }

  /** The slices before roll k span the time steps of the tracks before it. */
  lemma SlicesOffset(ks: seq<Track>, left: nat, right: nat, k: nat)
    requires left <= right < PitchCount
    requires forall j :: 0 <= j < |ks| ==> Retained(ks[j])
    requires k <= |ks|
    ensures TotalWidth(Slices(ks, left, right)[..k]) == Frames(ks[..k])
  {
    SlicesPrefix(ks, left, right, k);
    SlicesFrames(ks[..k], left, right);
  }

  /** Row p of slice k is row low + p of roll k. */
  lemma SliceRowAt(ks: seq<Track>, low: nat, high: nat, k: nat, p: nat)
    requires low <= high < PitchCount
    requires forall j :: 0 <= j < |ks| ==> Retained(ks[j])
    requires k < |ks| && p <= high - low
    ensures |ks[k].roll| == PitchCount && Slices(ks, low, high)[k][p] == ks[k].roll[low + p]
  {
    assert Retained(ks[k]);
  }

  lemma SlicesPrefix(ks: seq<Track>, left: nat, right: nat, k: nat)
    requires left <= right < PitchCount
    requires forall j :: 0 <= j < |ks| ==> Retained(ks[j])
    requires k <= |ks|
    ensures Slices(ks, left, right)[..k] == Slices(ks[..k], left, right)
  {
  }

  /** The tracks the range filter keeps, against the corpus bounds. */
  function KeptTracks(ts: seq<Track>, mean: real, std: real): (r: seq<Track>)
    requires forall i :: 0 <= i < |ts| ==> Retained(ts[i])
    requires PitchBounds(ts).Ok?
  {
    Kept(ts, mean, std, PitchBounds(ts).value.lowPitch, PitchBounds(ts).value.highPitch)
  }

  /** piano_roll_filter: report, aggregate, keep the tracks in range, slice their rolls to the
      pitch bounds, stack them along time and transpose; it raises when the report or the
      aggregation does, and when no track is kept. */
  function PianoRoll(ts: seq<Track>, mean: real, std: real): Result<Matrix>
    requires forall i :: 0 <= i < |ts| ==> Retained(ts[i])
  {
    match PitchBounds(ts)
    case Err(e) => Err(e)
    case Ok(agg) => Assemble(KeptTracks(ts, mean, std), agg.lowPitch, agg.highPitch)
  }

  /** The rows left..right of every roll, stacked along time and transposed; hstack of no
      roll raises. */
  function Assemble(ks: seq<Track>, left: nat, right: nat): (r: Result<Matrix>)
    requires left <= right < PitchCount
    requires forall i :: 0 <= i < |ks| ==> Retained(ks[i])
    ensures r.Err? <==> ks == []
    ensures r.Err? ==> r.error == NothingToStack
  {
    match HStack(Slices(ks, left, right))
    case Err(e) => Err(e)
    case Ok(m) => Ok(Transpose(m))
  }

  /** Admitting one more track appends its slice, or nothing when it fails a check. */
  lemma KeptSlicesStep(ts: seq<Track>, mean: real, std: real, left: nat, right: nat, i: nat)
    requires left <= right < PitchCount
    requires forall j :: 0 <= j < |ts| ==> Retained(ts[j])
    requires i < |ts| && Retained(ts[i])
    ensures Slices(Kept(ts[..i + 1], mean, std, left, right), left, right) ==
      Slices(Kept(ts[..i], mean, std, left, right), left, right) +
        (if Passes(ts[i], mean, std, left, right) then [SliceRows(ts[i].roll, left, right)] else [])
  {
    assert ts[..i + 1][..i] == ts[..i];
    var ks := Kept(ts[..i + 1], mean, std, left, right);
    if Passes(ts[i], mean, std, left, right) {
      assert ks[..|ks| - 1] == Kept(ts[..i], mean, std, left, right);
    }
  }

  /** Time step f of roll k, at pitch low + p, is column Frames(ks[..k]) + f of row p of the
      stacked slices. */
  lemma StackedAt(ks: seq<Track>, low: nat, high: nat, k: nat, f: nat, p: nat)
    requires low <= high < PitchCount
    requires forall i :: 0 <= i < |ks| ==> Retained(ks[i])
    requires k < |ks| && f < Width(ks[k].roll) && p <= high - low
    ensures HStack(Slices(ks, low, high)).Ok?
    ensures var stacked := HStack(Slices(ks, low, high)).value;
      && p < |stacked| && Frames(ks[..k]) + f < |stacked[p]| == Width(stacked)
      && |ks[k].roll| == PitchCount && f < |ks[k].roll[low + p]|
      && stacked[p][Frames(ks[..k]) + f] == ks[k].roll[low + p][f]
  {
    var slices := Slices(ks, low, high);
    HStackAt(slices, p, k, f);
    SlicesOffset(ks, low, high, k);
    SliceRowAt(ks, low, high, k, p);
  }

  /** Time step f of roll ks[k], at pitch low + p, is entry [Frames(ks[..k]) + f][p] of m:
      the rolls follow one another along time, in their order. */
  predicate EntryAt(m: Matrix, ks: seq<Track>, low: nat, k: nat, f: nat, p: nat)
  {
    && k < |ks| && Frames(ks[..k]) + f < |m| && p < |m[Frames(ks[..k]) + f]|
    && low + p < |ks[k].roll| && f < |ks[k].roll[low + p]|
    && m[Frames(ks[..k]) + f][p] == ks[k].roll[low + p][f]
  }

  /** Time step f of roll k, at pitch left + p, is entry [Frames(ks[..k]) + f][p] of the
      assembled matrix. */
  lemma AssembleAt(ks: seq<Track>, left: nat, right: nat, k: nat, f: nat, p: nat)
    requires left <= right < PitchCount
    requires forall i :: 0 <= i < |ks| ==> Retained(ks[i])
    requires k < |ks| && f < Width(ks[k].roll) && p <= right - left
    ensures Assemble(ks, left, right).Ok?
    ensures EntryAt(Assemble(ks, left, right).value, ks, left, k, f, p)
  {
    StackedAt(ks, left, right, k, f, p);
  }

  /** The assembled matrix has one row per time step of the rolls and one column per pitch of
      the band [left, right]. */
  lemma AssembleShape(ks: seq<Track>, left: nat, right: nat)
    requires left <= right < PitchCount
    requires forall i :: 0 <= i < |ks| ==> Retained(ks[i])
    requires ks != []
    ensures var m := Assemble(ks, left, right).value;
      && |m| == Frames(ks)
      && forall f :: 0 <= f < |m| ==> |m[f]| == right - left + 1
  {
    SlicesFrames(ks, left, right);
  }

  /** The outcome of piano_roll_filter: it raises on a track without notes (the report's min()),
      on an empty corpus (the most frequent key of an empty count), and when no track passes
      the range filter (hstack of nothing); otherwise it yields a matrix. */
  lemma PianoRollOutcome(ts: seq<Track>, mean: real, std: real)
    requires forall i :: 0 <= i < |ts| ==> Retained(ts[i])
    ensures PianoRoll(ts, mean, std) == Err(EmptyTrack) <==> exists i :: 0 <= i < |ts| && !HasNotes(ts[i])
    ensures ts == [] ==> PianoRoll(ts, mean, std) == Err(EmptyKeyCount)
    ensures PianoRoll(ts, mean, std) == Err(NothingToStack) <==>
              PitchBounds(ts).Ok? && KeptTracks(ts, mean, std) == []
    ensures PianoRoll(ts, mean, std).Ok? <==> PitchBounds(ts).Ok? && KeptTracks(ts, mean, std) != []
    ensures PianoRoll(ts, mean, std) != Err(EmptyMean)
  {
  }

  /** When the report and the aggregation succeed, the result is the assembly of the kept
      tracks between the pitch bounds. */
  lemma PianoRollAssembled(ts: seq<Track>, mean: real, std: real)
    requires forall i :: 0 <= i < |ts| ==> Retained(ts[i])
    requires PitchBounds(ts).Ok?
    ensures var agg := PitchBounds(ts).value;
      && 0 <= agg.lowPitch <= agg.highPitch < PitchCount
      && (forall i :: 0 <= i < |KeptTracks(ts, mean, std)| ==> Retained(KeptTracks(ts, mean, std)[i]))
      && PianoRoll(ts, mean, std) == Assemble(KeptTracks(ts, mean, std), agg.lowPitch, agg.highPitch)
  {
  }

  /** The result has one row per time step of the kept tracks and one column per pitch of the
      band [low, high]. */
  lemma PianoRollShape(ts: seq<Track>, mean: real, std: real)
    requires forall i :: 0 <= i < |ts| ==> Retained(ts[i])
    requires PianoRoll(ts, mean, std).Ok?
    ensures var agg, m := PitchBounds(ts).value, PianoRoll(ts, mean, std).value;
      && |m| == Frames(KeptTracks(ts, mean, std))
      && forall f :: 0 <= f < |m| ==> |m[f]| == agg.highPitch - agg.lowPitch + 1
  {
    var agg := PitchBounds(ts).value;
    AssembleShape(KeptTracks(ts, mean, std), agg.lowPitch, agg.highPitch);
  }

  /** Time step f of kept track k, at pitch low + p, is entry [Frames(kept[..k]) + f][p] of the
      result: the rolls follow one another along time, in the order the tracks were kept. */
  lemma PianoRollAt(ts: seq<Track>, mean: real, std: real, k: nat, f: nat, p: nat)
    requires forall i :: 0 <= i < |ts| ==> Retained(ts[i])
    requires PianoRoll(ts, mean, std).Ok?
    requires k < |KeptTracks(ts, mean, std)| && f < Width(KeptTracks(ts, mean, std)[k].roll)
    requires p <= PitchBounds(ts).value.highPitch - PitchBounds(ts).value.lowPitch
    ensures EntryAt(PianoRoll(ts, mean, std).value, KeptTracks(ts, mean, std), PitchBounds(ts).value.lowPitch, k, f, p)
  {
    var agg, kept := PitchBounds(ts).value, KeptTracks(ts, mean, std);
    PianoRollAssembled(ts, mean, std);
    AssembleAt(kept, agg.lowPitch, agg.highPitch, k, f, p);
  }

  /** The preprocessor: the tracks the loader kept and the last report it generated. */
  class Preprocess {
    var pms: seq<Track>
    var report: Option<FileReport>

    /** Every held track passed the loader and is what the parser guarantees. */
    predicate Valid()
      reads this
    {
      forall i :: 0 <= i < |pms| ==> Retained(pms[i])
    }

    /** Loading a directory whose files parse to files, in traversal order. */
    constructor (files: seq<ParseOutcome>)
      requires forall i :: 0 <= i < |files| && files[i].Parsed? ==> WellFormed(files[i].track)
      ensures Valid() && pms == Loaded(files) && report == None
    {
      pms := [];
      report := None;
      new;
      FileFilter(files);
    }

    /** _file_filter: keep each file that parses and has one key and one time signature. */
    method FileFilter(files: seq<ParseOutcome>)
      requires forall i :: 0 <= i < |files| && files[i].Parsed? ==> WellFormed(files[i].track)
      modifies this`pms
      ensures pms == Loaded(files) && Valid()
    {
      pms := [];
      for i := 0 to |files|
        invariant pms == Loaded(files[..i])
      {
        assert files[..i + 1][..i] == files[..i];
        match files[i]
        case ParseFailed =>
        case Parsed(t) =>
          if |t.keyNumbers| == 1 && t.timeSignatureChanges == 1 {
            pms := pms + [t];
          }
      }
      assert files[..|files|] == files;
    }

    /** generate_midi_files_report: the report of the held tracks, which also becomes the
        current report; on a track without notes it fails and the current report stays. */
    method GenerateMidiFilesReport() returns (r: Result<FileReport>)
      requires Valid()
      modifies this`report
      ensures r == ReportOf(pms)
      ensures r.Ok? ==> report == Some(r.value)
      ensures r.Err? ==> report == old(report)
    {
      r := CollectReport(pms);
      if r.Ok? {
        report := Some(r.value);
      }
    }

    /** The loop of generate_midi_files_report: per track, its tempo and key, then its pitch
        bounds, failing at the first track without notes. */
    method CollectReport(ts: seq<Track>) returns (r: Result<FileReport>)
      requires forall i :: 0 <= i < |ts| ==> Retained(ts[i])
      ensures r == ReportOf(ts)
    {
      var tempos, keys, minPitchs, maxPitchs := [], [], [], [];
      for i := 0 to |ts|
        invariant forall j :: 0 <= j < i ==> HasNotes(ts[j])
        invariant tempos == Tempos(ts[..i]) && keys == Keys(ts[..i])
        invariant minPitchs == MinPitches(ts[..i]) && maxPitchs == MaxPitches(ts[..i])
      {
        var pm := ts[i];
        tempos := tempos + [pm.tempo];
        keys := keys + [KeyOf(pm)];
        var bounds := MinMaxPitch(pm);
        if bounds.Err? {
          ReportFails(ts, i);
          return Err(bounds.error);
        }
        ReportListsStep(ts, i);
        minPitchs := minPitchs + [bounds.value.0];
        maxPitchs := maxPitchs + [bounds.value.1];
      }
      assert ts[..|ts|] == ts;
      r := Ok(FileReport(tempos, Tally(keys), minPitchs, maxPitchs));
    }

    /** piano_roll_filter, given the mean and the standard deviation of the report's tempos:
        it regenerates the report, then stacks the pitch band of every track in range. */
    method PianoRollFilter(tempoMean: real, tempoStd: real) returns (r: Result<Matrix>)
      requires Valid()
      modifies this`report
      ensures r == PianoRoll(pms, tempoMean, tempoStd)
      ensures ReportOf(pms).Ok? ==> report == Some(ReportOf(pms).value)
      ensures ReportOf(pms).Err? ==> report == old(report)
    {
      var ts := pms;
      var rep := GenerateMidiFilesReport();
      if rep.Err? {
        assert PianoRoll(ts, tempoMean, tempoStd) == Err(rep.error);
        return Err(rep.error);
      }
      var agg := rep.value.AggregationReport();
      assert agg == PitchBounds(ts);
      if agg.Err? {
        assert PianoRoll(ts, tempoMean, tempoStd) == Err(agg.error);
        return Err(agg.error);
      }
      r := StackInRange(ts, tempoMean, tempoStd, agg.value.lowPitch, agg.value.highPitch);
    }

    /** The loop of piano_roll_filter: the rows left..right of every track passing both checks,
        stacked along time and transposed. */
    method StackInRange(ts: seq<Track>, tempoMean: real, tempoStd: real, left: nat, right: nat)
      returns (r: Result<Matrix>)
      requires left <= right < PitchCount
      requires forall i :: 0 <= i < |ts| ==> Retained(ts[i]) && HasNotes(ts[i])
      ensures r == Assemble(Kept(ts, tempoMean, tempoStd, left, right), left, right)
    {
      var pianoRolls := [];
      for i := 0 to |ts|
        invariant pianoRolls == Slices(Kept(ts[..i], tempoMean, tempoStd, left, right), left, right)
      {
        var pm := ts[i];
        var (minPitch, maxPitch) := MinMaxPitch(pm).value;
        KeptSlicesStep(ts, tempoMean, tempoStd, left, right, i);
        if InTempoRange(pm.tempo, tempoMean, tempoStd) && InPitchRange(minPitch, maxPitch, left, right) {
          pianoRolls := pianoRolls + [SliceRows(pm.roll, left, right)];
        }
      }
      assert ts[..|ts|] == ts;
      var stacked := HStack(pianoRolls);
      if stacked.Err? {
        return Err(stacked.error);
      }
      r := Ok(Transpose(stacked.value));
    }
  }
}
