/** Constants, round records and the pure rules of the pitch trainer:
    the cadence asset path, the start and dispatch gating, the resolution
    of a round, and the score of a session. */
module Trainer {
  import opened Wrappers

  /** The keys offered by the tonality selection. */
  const Tonalities: seq<string> := ["C", "C#", "D", "Eb", "E", "F", "F#", "G", "Ab", "A", "Bb", "B"]
  /** The cadence progressions offered by the cadence selection. */
  const Cadences: seq<string> := ["I-IV-V-I", "I-V-I", "II-V-I"]
  /** The target notes and, at the same time, the labels of the guess buttons. */
  const NoteNames: seq<string> := ["C4", "C#4", "D4", "Eb4", "E4", "F4", "F#4", "G4", "Ab4", "A4", "Bb4", "B4"]
  const AudioDir: string := "audio"
  const RoundsPerSession: nat := 3
  /** A round times out when strictly more than this many seconds have elapsed. */
  const TimeoutSeconds: real := 3.0
  /** The guess recorded for a round that timed out. */
  const NoAnswer: string := "?"

  /** One entry of the session's round log: `{guess, target, correct, time}`. */
  datatype RoundResult = RoundResult(guess: string, target: string, correct: bool, time: real)

  /** The three user selections, named after the fields of the settings sidebar. */
  datatype Selection = SelectedNotes | CadenceTypes | Tonality

  /** A round record as resolution produces it: the target is a note, the guess is
      a note or the no-answer marker, and `correct` says whether they agree. */
  ghost predicate WellFormed(r: RoundResult)
  {
    && r.target in NoteNames
    && (r.guess in NoteNames || r.guess == NoAnswer)
    && (r.correct <==> r.guess == r.target)
  }

  // ---------------------------------------------------------------------------
  // Cadence asset path
  // ---------------------------------------------------------------------------

  /** The pre-rendered cadence clip for a cadence and a key: `audio/<cadence>_<key>.wav`. */
  function CadenceFile(cadence: string, tonality: string): (path: string)
    ensures |path| == |AudioDir| + |cadence| + |tonality| + 6
    ensures path[..|AudioDir| + 1] == AudioDir + "/"
    ensures path[|path| - 4..] == ".wav"
  {
    AudioDir + "/" + cadence + "_" + tonality + ".wav"
  }

  /** The position of the first occurrence of `c` in `s`, if any. */
  ghost function IndexOf(s: string, c: char): (r: Option<nat>)
    ensures r.None? ==> c !in s
    ensures r.Some? ==> r.value < |s| && s[r.value] == c && c !in s[..r.value]
  {
    if s == [] then None
    else if s[0] == c then Some(0)
    else
      match IndexOf(s[1..], c)
      case None => None
      case Some(i) =>
        assert s[..i + 1] == [s[0]] + s[1..][..i];
        Some(i + 1)
  }

  /** The (cadence, key) pair an asset path names, read back by splitting the file
      stem at its first underscore; `None` for a path not of the asset form. */
  ghost function CadenceAssetKey(path: string): (key: Option<(string, string)>)
    ensures key.Some? ==> CadenceFile(key.value.0, key.value.1) == path
  {
    var prefix := AudioDir + "/";
    if |path| < |prefix| + 4 || path[..|prefix|] != prefix || path[|path| - 4..] != ".wav" then None
    else
      var stem := path[|prefix|..|path| - 4];
      match IndexOf(stem, '_')
      case None => None
      case Some(i) =>
        assert stem == stem[..i] + "_" + stem[i + 1..];
        assert path == prefix + stem + ".wav";
        Some((stem[..i], stem[i + 1..]))
  }

  /** Reading a cadence path back gives the cadence and key it was built from,
      provided the cadence name has no underscore. */
  lemma {:induction false} CadenceFileRoundTrip(cadence: string, tonality: string)
    requires '_' !in cadence
    ensures CadenceAssetKey(CadenceFile(cadence, tonality)) == Some((cadence, tonality))
  {
    var path := CadenceFile(cadence, tonality);
    var stem := cadence + "_" + tonality;
    assert path == AudioDir + "/" + stem + ".wav";
    assert path[|AudioDir| + 1..|path| - 4] == stem;
    IndexOfAfterUnderscoreFree(cadence, tonality);
    assert stem[..|cadence|] == cadence;
    assert stem[|cadence| + 1..] == tonality;
  }

  /** In `cadence + "_" + rest` the first underscore is the separator, when the
      cadence has none of its own. */
  lemma {:induction false} IndexOfAfterUnderscoreFree(cadence: string, rest: string)
    requires '_' !in cadence
    ensures IndexOf(cadence + "_" + rest, '_') == Some(|cadence|)
  {
    if cadence != [] {
      assert (cadence + "_" + rest)[1..] == cadence[1..] + "_" + rest;
      IndexOfAfterUnderscoreFree(cadence[1..], rest);
    }
  }

  /** No offered cadence name contains the underscore that separates it from the key. */
  lemma OfferedCadencesHaveNoSeparator(cadence: string)
    requires cadence in Cadences
    ensures '_' !in cadence
  {
  }

  /** Distinct (cadence, key) selections name distinct asset files. */
  lemma CadenceFilesDistinct(c1: string, t1: string, c2: string, t2: string)
    requires c1 in Cadences && c2 in Cadences
    requires CadenceFile(c1, t1) == CadenceFile(c2, t2)
    ensures c1 == c2 && t1 == t2
  {
    OfferedCadencesHaveNoSeparator(c1);
    OfferedCadencesHaveNoSeparator(c2);
    CadenceFileRoundTrip(c1, t1);
    CadenceFileRoundTrip(c2, t2);
  }

  // ---------------------------------------------------------------------------
  // Gating on the selections
  // ---------------------------------------------------------------------------

  /** The error the Start button reports: the first empty selection in the order
      notes, cadence types, tonality; `None` when a session may start. */
  function StartError(notes: seq<string>, cadences: seq<string>, tonality: seq<string>): (missing: Option<Selection>)
    ensures missing.None? <==> notes != [] && cadences != [] && tonality != []
    ensures missing == Some(SelectedNotes) <==> notes == []
    ensures missing == Some(CadenceTypes) <==> notes != [] && cadences == []
    ensures missing == Some(Tonality) <==> notes != [] && cadences != [] && tonality == []
  {
    if notes == [] then Some(SelectedNotes)
    else if cadences == [] then Some(CadenceTypes)
    else if tonality == [] then Some(Tonality)
    else None
  }

  /** The selection a stimulus dispatch fails on: the random draws are made from
      the cadence types, then the tonality, then the notes, and a draw from an
      empty selection raises. `None` when every draw can be made. */
  function DispatchError(cadences: seq<string>, tonality: seq<string>, notes: seq<string>): (missing: Option<Selection>)
    ensures missing.None? <==> cadences != [] && tonality != [] && notes != []
    ensures missing == Some(CadenceTypes) <==> cadences == []
    ensures missing == Some(Tonality) <==> cadences != [] && tonality == []
    ensures missing == Some(SelectedNotes) <==> cadences != [] && tonality != [] && notes == []
  {
    if cadences == [] then Some(CadenceTypes)
    else if tonality == [] then Some(Tonality)
    else if notes == [] then Some(SelectedNotes)
    else None
  }

  // ---------------------------------------------------------------------------
  // Resolving a round
  // ---------------------------------------------------------------------------

  /** What one evaluation of a pending round produces, given the guess submitted
      so far, the seconds elapsed since the stimulus and the target note: no
      record while there is neither a guess nor a timeout, otherwise the record
      to append. A timeout wins over a pending guess. */
  function Resolution(submitted: Option<string>, elapsed: real, target: string): (r: Option<RoundResult>)
    requires submitted.Some? ==> submitted.value in NoteNames
    ensures r.None? <==> submitted.None? && elapsed <= TimeoutSeconds
    ensures r.Some? ==> r.value.target == target && r.value.time == elapsed
    ensures r.Some? && elapsed > TimeoutSeconds ==> r.value.guess == NoAnswer
    ensures r.Some? && elapsed <= TimeoutSeconds ==> Some(r.value.guess) == submitted
    ensures r.Some? ==> (r.value.correct <==> r.value.guess == target)
    ensures r.Some? && target in NoteNames ==> WellFormed(r.value)
  {
    var timeout := elapsed > TimeoutSeconds;
    if timeout || submitted.Some? then
      var finalGuess := if submitted.Some? && !timeout then submitted.value else NoAnswer;
      Some(RoundResult(finalGuess, target, finalGuess == target, elapsed))
    else
      None
  }

  /** A round that timed out is never scored correct, whatever guess was pending. */
  lemma TimedOutRoundIsIncorrect(submitted: Option<string>, elapsed: real, target: string)
    requires submitted.Some? ==> submitted.value in NoteNames
    requires target in NoteNames
    requires elapsed > TimeoutSeconds
    ensures Resolution(submitted, elapsed, target).Some?
    ensures !Resolution(submitted, elapsed, target).value.correct
  {
  }

  // ---------------------------------------------------------------------------
  // Scoring
  // ---------------------------------------------------------------------------

  /** The number of rounds marked correct: the score shown at completion. */
  function CountCorrect(rounds: seq<RoundResult>): (n: nat)
    ensures n <= |rounds|
  {
    if rounds == [] then 0
    else (if rounds[0].correct then 1 else 0) + CountCorrect(rounds[1..])
  }

  /** The number of rounds recorded as timed out. */
  function CountTimeouts(rounds: seq<RoundResult>): (n: nat)
    ensures n <= |rounds|
  {
    if rounds == [] then 0
    else (if rounds[0].guess == NoAnswer then 1 else 0) + CountTimeouts(rounds[1..])
  }

  /** Appending one resolved round raises the score by one exactly when that round is correct. */
  lemma {:induction false} CountCorrectAppend(rounds: seq<RoundResult>, r: RoundResult)
    ensures CountCorrect(rounds + [r]) == CountCorrect(rounds) + (if r.correct then 1 else 0)
  {
    if rounds != [] {
      assert (rounds + [r])[1..] == rounds[1..] + [r];
      CountCorrectAppend(rounds[1..], r);
    }
  }

  /** Correct rounds and timed-out rounds are disjoint, so together they never
      outnumber the rounds played. */
  lemma {:induction false} CorrectAndTimedOutDisjoint(rounds: seq<RoundResult>)
    requires forall i :: 0 <= i < |rounds| ==> WellFormed(rounds[i])
    ensures CountCorrect(rounds) + CountTimeouts(rounds) <= |rounds|
  {
    if rounds != [] {
      assert WellFormed(rounds[0]);
      assert forall i :: 0 <= i < |rounds[1..]| ==> WellFormed(rounds[1..][i]) by {
        forall i | 0 <= i < |rounds[1..]| ensures WellFormed(rounds[1..][i]) {
          assert rounds[1..][i] == rounds[i + 1];
        }
      }
      CorrectAndTimedOutDisjoint(rounds[1..]);
    }
  }
}
