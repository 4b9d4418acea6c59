/** The per-user session state of the pitch trainer and the steps one run of
    the page script applies to it. The page script is re-run from the top on
    every user interaction; `Rerun` is one such run, and the other methods are
    the blocks of the script it executes in order. */
module Session {
  import opened Wrappers
  import opened Trainer

  /** The single widget interaction that caused a run of the script. */
  datatype Event =
    | NoEvent                  // a change of a selection, or any other redraw
    | NotePressed(note: string)
    | StartPressed
    | NewSessionPressed

  /** The current values of the three sidebar selections. */
  datatype Selections = Selections(notes: seq<string>, cadences: seq<string>, tonality: seq<string>)

  /** The values the three random draws of a dispatch return. */
  datatype Picks = Picks(cadence: string, tonality: string, note: string)

  /** A selection only ever holds options its widget offers. */
  predicate Offered(sel: Selections)
  {
    && (forall n :: n in sel.notes ==> n in NoteNames)
    && (forall c :: c in sel.cadences ==> c in Cadences)
    && (forall t :: t in sel.tonality ==> t in Tonalities)
  }

  /** Each draw returns a member of its selection whenever that selection is not empty. */
  predicate DrawnFrom(picks: Picks, sel: Selections)
  {
    && (sel.cadences != [] ==> picks.cadence in sel.cadences)
    && (sel.tonality != [] ==> picks.tonality in sel.tonality)
    && (sel.notes != [] ==> picks.note in sel.notes)
  }

  /** What the game area of the page does in one run. */
  datatype Step =
    | Idle(startError: Option<Selection>)  // no session; the error of a refused start, if any
    | Complete(score: nat)                 // the session is over; the score it reports
    | Dispatched(cadenceFile: string)      // a stimulus was dispatched for the next round
    | DispatchFailed(empty: Selection)     // a random draw was made from an empty selection
    | Waiting                              // a round is pending: no guess and no timeout yet
    | Resolved(result: RoundResult)        // a round was resolved and this record appended

  /** The lifecycle phase the state encodes. */
  datatype Phase = Inactive | AwaitingStimulus | AwaitingResponse | Finished

  /** The phase changes one run of the script can make. */
  predicate RunTransition(from: Phase, to: Phase)
  {
    match from
    case Inactive => to == Inactive || to == AwaitingResponse
    case AwaitingStimulus => to == AwaitingStimulus || to == AwaitingResponse
    case AwaitingResponse => to == AwaitingResponse || to == AwaitingStimulus || to == Finished
    case Finished => to == Finished || to == Inactive
  }

  class SessionState {
    var sessionActive: bool
    var rounds: seq<RoundResult>
    var roundIndex: nat
    var currentNote: Option<string>
    var startTime: Option<real>
    var nextRoundTrigger: bool
    var submitted: Option<string>

    /** The session invariant: the index counts the round log, which never
        exceeds the rounds of a session and is empty outside a session; a
        pending round has a target and a start time; every record is well formed. */
    ghost predicate Valid()
      reads this
    {
      && roundIndex == |rounds|
      && roundIndex <= RoundsPerSession
      && (!sessionActive ==> rounds == [])
      && (sessionActive && !nextRoundTrigger ==> currentNote.Some? && startTime.Some?)
      && (currentNote.Some? ==> currentNote.value in NoteNames)
      && (submitted.Some? ==> submitted.value in NoteNames)
      && (forall i :: 0 <= i < |rounds| ==> WellFormed(rounds[i]))
    }

    ghost function CurrentPhase(): Phase
      reads this
    {
      if !sessionActive then Inactive
      else if roundIndex >= RoundsPerSession then Finished
      else if nextRoundTrigger then AwaitingStimulus
      else AwaitingResponse
    }

    /** The first-run initialisation of the session state. */
    constructor ()
      ensures Valid() && CurrentPhase() == Inactive
      ensures !sessionActive && rounds == [] && roundIndex == 0
      ensures currentNote == None && startTime == None
      ensures !nextRoundTrigger && submitted == None
    {
      sessionActive := false;
      rounds := [];
      roundIndex := 0;
      currentNote := None;
      startTime := None;
      nextRoundTrigger := false;
      submitted := None;
    }

    /** A note button records its label as the submitted guess, in any phase. */
    method PressNote(note: string)
      requires Valid()
      requires note in NoteNames
      modifies this`submitted
      ensures Valid()
      ensures submitted == Some(note)
    {
      submitted := Some(note);
    }

    /** The Start button, clicked while no session is active (the model takes a
        click that arrives while a session is active as never delivered): refuses
        with the first empty selection, otherwise opens a session with an empty
        round log and arms the first stimulus. */
    method StartSession(sel: Selections) returns (err: Option<Selection>)
      requires Valid()
      requires !sessionActive
      modifies this
      ensures Valid()
      ensures err == StartError(sel.notes, sel.cadences, sel.tonality)
      ensures err.Some? ==> unchanged(this)
      ensures err.None? ==> sessionActive && rounds == [] && roundIndex == 0 && nextRoundTrigger
      ensures err.None? ==> CurrentPhase() == AwaitingStimulus
      ensures currentNote == old(currentNote) && startTime == old(startTime) && submitted == old(submitted)
    {
      err := StartError(sel.notes, sel.cadences, sel.tonality);
      if err.None? {
        sessionActive := true;
        rounds := [];
        roundIndex := 0;
        nextRoundTrigger := true;
      }
    }

    /** Dispatches the stimulus of the next round: draws a cadence, a key and a
        target note, discards any guess submitted before the stimulus, records the
        clock reading `now` as the round's start and disarms the trigger. A draw
        from an empty selection raises and leaves the state as it was. */
    method Dispatch(sel: Selections, picks: Picks, now: real) returns (step: Step)
      requires Valid()
      requires Offered(sel) && DrawnFrom(picks, sel)
      requires CurrentPhase() == AwaitingStimulus
      modifies this
      ensures Valid()
      ensures DispatchError(sel.cadences, sel.tonality, sel.notes).Some? ==>
        step == DispatchFailed(DispatchError(sel.cadences, sel.tonality, sel.notes).value) && unchanged(this)
      ensures DispatchError(sel.cadences, sel.tonality, sel.notes).None? ==>
        && step == Dispatched(CadenceFile(picks.cadence, picks.tonality))
        && currentNote == Some(picks.note) && submitted == None && startTime == Some(now)
        && !nextRoundTrigger && CurrentPhase() == AwaitingResponse
      ensures sessionActive == old(sessionActive) && rounds == old(rounds) && roundIndex == old(roundIndex)
    {
      var missing := DispatchError(sel.cadences, sel.tonality, sel.notes);
      if missing.Some? {
        return DispatchFailed(missing.value);
      }
      var cadenceFile := CadenceFile(picks.cadence, picks.tonality);
      currentNote := Some(picks.note);
      submitted := None;
      startTime := Some(now);
      nextRoundTrigger := false;
      step := Dispatched(cadenceFile);
    }

    /** Evaluates the pending round at clock reading `now`: with neither a guess
        nor a timeout nothing changes; otherwise exactly one record is appended,
        the index advances by one and the next stimulus is armed. */
    method Tick(now: real) returns (result: Option<RoundResult>)
      requires Valid()
      requires CurrentPhase() == AwaitingResponse
      modifies this
      ensures Valid()
      ensures result == Resolution(old(submitted), now - old(startTime).value, old(currentNote).value)
      ensures result.None? ==> unchanged(this)
      ensures result.Some? ==>
        && rounds == old(rounds) + [result.value]
        && roundIndex == old(roundIndex) + 1
        && nextRoundTrigger
      ensures result.Some? ==> CurrentPhase() == (if roundIndex == RoundsPerSession then Finished else AwaitingStimulus)
      ensures sessionActive == old(sessionActive) && currentNote == old(currentNote)
      ensures startTime == old(startTime) && submitted == old(submitted)
    {
      var elapsed := now - startTime.value;
      result := Resolution(submitted, elapsed, currentNote.value);
      if result.Some? {
        rounds := rounds + [result.value];
        roundIndex := roundIndex + 1;
        nextRoundTrigger := true;
      }
    }

    /** The score shown once the session is over: the rounds marked correct. */
    method CompletionScore() returns (score: nat)
      requires Valid()
      requires CurrentPhase() == Finished
      ensures score == CountCorrect(rounds)
      ensures score + CountTimeouts(rounds) <= RoundsPerSession
    {
      CorrectAndTimedOutDisjoint(rounds);
      score := CountCorrect(rounds);
    }

    /** The Start New Session button: leaves the session with an empty round log. */
    method NewSession()
      requires Valid()
      requires CurrentPhase() == Finished
      modifies this
      ensures Valid() && CurrentPhase() == Inactive
      ensures !sessionActive && roundIndex == 0 && rounds == []
      ensures currentNote == old(currentNote) && startTime == old(startTime)
      ensures nextRoundTrigger == old(nextRoundTrigger) && submitted == old(submitted)
    {
      sessionActive := false;
      roundIndex := 0;
      rounds := [];
    }

    /** The game area of the page: reports a finished session (and resets it when
        Start New Session was pressed), dispatches an armed stimulus, or
        evaluates the pending round. */
    method GameLogic(event: Event, sel: Selections, picks: Picks, now: real) returns (step: Step)
      requires Valid()
      requires Offered(sel) && DrawnFrom(picks, sel)
      modifies this
      ensures Valid()
      ensures RunTransition(old(CurrentPhase()), CurrentPhase())
      ensures step.Idle? <==> old(CurrentPhase()) == Inactive
      ensures old(CurrentPhase()) == Inactive ==> step == Idle(None) && unchanged(this)
      ensures old(CurrentPhase()) == AwaitingStimulus ==>
        step == match DispatchError(sel.cadences, sel.tonality, sel.notes)
                case Some(empty) => DispatchFailed(empty)
                case None => Dispatched(CadenceFile(picks.cadence, picks.tonality))
      ensures old(CurrentPhase()) == AwaitingResponse ==>
        step == match Resolution(old(submitted), now - old(startTime).value, old(currentNote).value)
                case None => Waiting
                case Some(r) => Resolved(r)
      ensures step.Waiting? ==> unchanged(this)
      ensures step.Resolved? ==> nextRoundTrigger
      ensures old(CurrentPhase()) == Finished && event != NewSessionPressed ==> unchanged(this)
      ensures step.Resolved? || old(CurrentPhase()) == Finished ==>
        currentNote == old(currentNote) && startTime == old(startTime) && submitted == old(submitted)
      ensures old(CurrentPhase()) == Finished ==> nextRoundTrigger == old(nextRoundTrigger)
      ensures old(CurrentPhase()) == Finished ==>
        && step == Complete(CountCorrect(old(rounds)))
        && step.score <= RoundsPerSession
        && (CurrentPhase() == Inactive <==> event == NewSessionPressed)
      ensures step.Resolved? ==>
        rounds == old(rounds) + [step.result] && roundIndex == old(roundIndex) + 1
      ensures !step.Resolved? && old(CurrentPhase()) != Finished ==>
        rounds == old(rounds) && roundIndex == old(roundIndex)
      ensures step.Dispatched? ==>
        submitted == None && startTime == Some(now) && currentNote == Some(picks.note) && CurrentPhase() == AwaitingResponse
      ensures step.DispatchFailed? ==> unchanged(this)
    {
      if sessionActive {
        if roundIndex >= RoundsPerSession {
          var score := CompletionScore();
          if event == NewSessionPressed {
            NewSession();
          }
          step := Complete(score);
        } else if nextRoundTrigger {
          step := Dispatch(sel, picks, now);
        } else {
          var result := Tick(now);
          step := if result.Some? then Resolved(result.value) else Waiting;
        }
      } else {
        step := Idle(None);
      }
    }

    /** One run of the page script for one widget interaction: the note buttons,
        then the Start button, then the game area. */
    method Rerun(event: Event, sel: Selections, picks: Picks, now: real) returns (step: Step)
      requires Valid()
      requires event.NotePressed? ==> event.note in NoteNames
      requires Offered(sel) && DrawnFrom(picks, sel)
      modifies this
      ensures Valid()
      ensures RunTransition(old(CurrentPhase()), CurrentPhase())
      // only a note button sets the pending guess, and only a dispatch clears it
      ensures !step.Dispatched? ==> submitted == (if event.NotePressed? then Some(event.note) else old(submitted))
      // the round log changes only when a round resolves or a finished session is left
      ensures !step.Resolved? && old(CurrentPhase()) != Finished ==> rounds == old(rounds) && roundIndex == old(roundIndex)
      // no session: Start is gated on the selections
      ensures old(CurrentPhase()) == Inactive && event != StartPressed ==>
        && step == Idle(None) && !sessionActive && nextRoundTrigger == old(nextRoundTrigger)
        && currentNote == old(currentNote) && startTime == old(startTime)
      ensures old(CurrentPhase()) == Inactive && event == StartPressed && StartError(sel.notes, sel.cadences, sel.tonality).Some? ==>
        step == Idle(StartError(sel.notes, sel.cadences, sel.tonality)) && unchanged(this)
      ensures old(CurrentPhase()) == Inactive && event == StartPressed && StartError(sel.notes, sel.cadences, sel.tonality).None? ==>
        step == Dispatched(CadenceFile(picks.cadence, picks.tonality)) && sessionActive
      // an armed stimulus: dispatched, or a draw from an empty selection that changes nothing
      ensures old(CurrentPhase()) == AwaitingStimulus ==>
        step == match DispatchError(sel.cadences, sel.tonality, sel.notes)
                case Some(e) => DispatchFailed(e)
                case None => Dispatched(CadenceFile(picks.cadence, picks.tonality))
      ensures step.Dispatched? ==>
        && currentNote == Some(picks.note) && submitted == None && startTime == Some(now)
        && CurrentPhase() == AwaitingResponse
      ensures step.DispatchFailed? ==>
        CurrentPhase() == AwaitingStimulus && currentNote == old(currentNote) && startTime == old(startTime)
      // a pending round: waits with nothing changed, or resolves with exactly its record
      ensures old(CurrentPhase()) == AwaitingResponse ==>
        step == match Resolution(if event.NotePressed? then Some(event.note) else old(submitted),
                                 now - old(startTime).value, old(currentNote).value)
                case None => Waiting
                case Some(r) => Resolved(r)
      ensures step.Waiting? ==> unchanged(this)
      ensures step.Resolved? ==>
        && rounds == old(rounds) + [step.result] && roundIndex == old(roundIndex) + 1
        && nextRoundTrigger && currentNote == old(currentNote) && startTime == old(startTime)
      // a finished session: reports its score, and is left only by Start New Session
      ensures old(CurrentPhase()) == Finished ==>
        && step == Complete(CountCorrect(old(rounds))) && step.score <= RoundsPerSession
        && (CurrentPhase() == Inactive <==> event == NewSessionPressed)
        && nextRoundTrigger == old(nextRoundTrigger) && currentNote == old(currentNote) && startTime == old(startTime)
      ensures old(CurrentPhase()) == Finished && event != NewSessionPressed ==>
        sessionActive && rounds == old(rounds) && roundIndex == old(roundIndex)
    {
      if event.NotePressed? {
        PressNote(event.note);
      }
      var startError := None;
      if event == StartPressed && !sessionActive {
        startError := StartSession(sel);
      }
      step := GameLogic(event, sel, picks, now);
      if step.Idle? {
        step := Idle(startError);
      }
    }
  }
}
