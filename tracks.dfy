/** A parsed MIDI file, reduced to what the pipeline reads from it. */
module Tracks {
  import opened Basics
  import opened Seqs
  import opened Matrices

  /** MIDI note numbers run from 0 to 127, and a piano roll has one row per note number. */
  const PitchCount: nat := 128

  /** What the parser yields for one file: the note pitches of each instrument, the estimated
      tempo, the key number of every key-signature change, the number of time-signature
      changes, and the piano roll (pitch rows by time columns). */
  datatype Track = Track(
    instruments: seq<seq<int>>,
    tempo: real,
    keyNumbers: seq<int>,
    timeSignatureChanges: nat,
    roll: Matrix)

  /** The outcome of parsing one file; any exception of the parser is a ParseFailed. */
  datatype ParseOutcome = ParseFailed | Parsed(track: Track)

  /** What the parser guarantees: note numbers are MIDI note numbers and the piano roll is a
      rectangular array with 128 rows. */
  predicate WellFormed(t: Track)
  {
    && (forall i, j :: 0 <= i < |t.instruments| && 0 <= j < |t.instruments[i]| ==>
          0 <= t.instruments[i][j] < PitchCount)
    && |t.roll| == PitchCount
    && Rect(t.roll)
  }

  /** The loader's criterion: one key signature and one time signature. */
  predicate SingleSignature(t: Track)
  {
    |t.keyNumbers| == 1 && t.timeSignatureChanges == 1
  }

  /** What every track held by the pipeline satisfies. */
  predicate Retained(t: Track)
  {
    WellFormed(t) && SingleSignature(t)
  }

  predicate HasNotes(t: Track)
  {
    exists i :: 0 <= i < |t.instruments| && t.instruments[i] != []
  }

  /** p is the pitch of some note of some instrument of t. */
  predicate IsNote(t: Track, p: int)
  {
    exists i :: 0 <= i < |t.instruments| && p in t.instruments[i]
  }

  /** The lowest and highest note pitch over all instruments; min() of the empty list of a
      track without notes raises. */
  function MinMaxPitch(t: Track): (r: Result<(int, int)>)
    ensures r.Err? <==> !HasNotes(t)
    ensures r.Err? ==> r.error == EmptyTrack
  {
    var notes := Flatten(t.instruments);
    if notes == [] then Err(EmptyTrack) else Ok((Min(notes), Max(notes)))
  }

  /** Both bounds of a track with notes are pitches of its notes, lowest first, and every
      note lies between them. */
  lemma MinMaxPitchBounds(t: Track)
    requires HasNotes(t)
    ensures var (lo, hi) := MinMaxPitch(t).value;
      && IsNote(t, lo) && IsNote(t, hi) && lo <= hi
      && forall i, j :: 0 <= i < |t.instruments| && 0 <= j < |t.instruments[i]| ==>
           lo <= t.instruments[i][j] <= hi
  {
    var notes := Flatten(t.instruments);
    assert forall i, j :: 0 <= i < |t.instruments| && 0 <= j < |t.instruments[i]| ==>
             t.instruments[i][j] in notes;
  }

  /** The pitch bounds of a track that lies in [0, 127] stay in [0, 127]. */
  lemma PitchesOfWellFormed(t: Track)
    requires WellFormed(t) && HasNotes(t)
    ensures 0 <= MinMaxPitch(t).value.0 <= MinMaxPitch(t).value.1 < PitchCount
  {
    MinMaxPitchBounds(t);
    var (lo, hi) := MinMaxPitch(t).value;
    var i :| 0 <= i < |t.instruments| && lo in t.instruments[i];
    var j :| 0 <= j < |t.instruments[i]| && t.instruments[i][j] == lo;
    var i' :| 0 <= i' < |t.instruments| && hi in t.instruments[i'];
    var j' :| 0 <= j' < |t.instruments[i']| && t.instruments[i'][j'] == hi;
  }
}
