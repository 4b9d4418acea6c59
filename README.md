# Pitch trainer session state machine

A Dafny model of the quiz logic of the Streamlit pitch-recognition trainer
(`app.py`). The page script is re-run from the top on every widget
interaction and keeps its state in the per-user session state:
`session_active`, `rounds`, `round_index`, `current_note`, `start_time`,
`next_round_trigger` and `submitted`. The model keeps these as the fields of
the class `Session.SessionState`. Each block of the script is one method of
that class: the note buttons, the Start button, stimulus dispatch, round
resolution, the completion report and the Start New Session button.
`SessionState.Rerun` runs them in the script's order for one interaction.

What the script gets from outside is passed in as parameters:

- the three sidebar selections (`Selections`);
- the three `random.choice` draws (`Picks`), each a member of its selection
  when that selection is not empty;
- the clock reading `time.time()` (`now`, a `real`);
- the widget interaction that caused the run (`Event`).

The pure rules live in module `Trainer`:

- the cadence clip path `audio/<cadence>_<key>.wav`, with its inverse;
- which empty selection blocks a start and which one makes a dispatch raise;
- how a pending round resolves. A timeout, meaning strictly more than 3 seconds
  elapsed, beats a pending guess and records `"?"`. The guess is compared to the
  target by exact equality;
- the completion score, meaning the number of rounds marked correct.

`SessionState.Valid()` is the session invariant:

- `round_index == |rounds|`;
- `round_index <= ROUNDS_PER_SESSION` (3);
- the log is empty outside a session;
- a pending round has a target and a start time;
- every record is well formed. Its target is a note and its guess is a note or
  `"?"`. It is correct exactly when guess and target agree.

Every step preserves it.
`RunTransition` lists the lifecycle moves one run can make:

- inactive → inactive, or inactive → awaiting a response (Start and the first
  dispatch happen in the same run);
- awaiting a stimulus → awaiting a stimulus (a failed dispatch), or awaiting a
  stimulus → awaiting a response;
- awaiting a response → awaiting a response, awaiting a response → awaiting a
  stimulus, or awaiting a response → finished;
- finished → finished, or finished → inactive.

Three behaviours of the code are easy to misread; the model follows the code:

- Guesses are not normalised. They come only from the note buttons, whose
  labels carry the octave (`'C4'`), and they are compared to the target
  verbatim.
- There is no timestamp tie-break. When the timeout has passed, the round
  records `"?"` even if a guess is pending.
- A session has `ROUNDS_PER_SESSION = 3` rounds, although the idle page text
  says 20.

A guess pressed before its stimulus is dispatched is discarded by the dispatch
that clears `submitted`, including a guess pressed in the same run.

## Model

| member | source | states |
|---|---|---|
| Trainer.CadenceFile | app.py:156 | the clip path lies in the `audio/` directory, ends in `.wav`, and is as long as directory, separator, cadence, underscore, key and extension together |
| Trainer.CadenceAssetKey | app.py:156 | reading a path back: any (cadence, key) it returns rebuilds exactly that path |
| Trainer.CadenceFileRoundTrip | app.py:156 | for a cadence without an underscore, reading the built path back returns the cadence and key it was built from |
| Trainer.OfferedCadencesHaveNoSeparator | app.py:17 | no offered cadence name contains the underscore that separates cadence from key |
| Trainer.CadenceFilesDistinct | app.py:154-156 | two offered cadences with any keys give the same clip path only if cadence and key are both the same |
| Trainer.StartError | app.py:114-121 | Start is refused exactly when a selection is empty, and the single error names the first empty one in the order notes, cadence types, tonality |
| Trainer.DispatchError | app.py:154-158 | a dispatch raises exactly when a selection is empty, on the first empty one in the draw order cadence types, tonality, notes |
| Trainer.Resolution | app.py:172-186 | no record is produced iff there is no guess and at most 3 seconds elapsed; otherwise the record has the target and elapsed time, the guess is `"?"` on a timeout and the pending guess otherwise, `correct` holds iff guess equals target, and the record is well formed |
| Trainer.TimedOutRoundIsIncorrect | app.py:175-180 | a round evaluated after more than 3 seconds always resolves, and as incorrect, even with a correct guess pending |
| Trainer.CountCorrect | app.py:134 | the score never exceeds the number of rounds |
| Trainer.CountTimeouts | app.py:179 | the timed-out rounds never exceed the number of rounds |
| Trainer.CountCorrectAppend | app.py:134 | appending one record raises the score by one exactly when that record is correct |
| Trainer.CorrectAndTimedOutDisjoint | app.py:179-180 | over well-formed records, correct rounds plus timed-out rounds never exceed the rounds played |
| Session.SessionState.constructor | app.py:94-101 | the first-run state: no session, empty log, index 0, no note, no start time, no armed trigger, no guess; the invariant holds |
| Session.SessionState.PressNote | app.py:108-110 | a note button sets the submitted guess to its label in any phase and keeps the invariant |
| Session.SessionState.StartSession | app.py:114-125 | the reported error is the first empty selection and the state is then unchanged; otherwise the session is active with an empty log, index 0 and the stimulus armed |
| Session.SessionState.Dispatch | app.py:153-170 | on a draw from an empty selection the state is unchanged; otherwise the target is the drawn note, the pending guess is cleared, the start time is `now`, the trigger is disarmed and the returned path is the clip for the drawn cadence and key; log and index unchanged |
| Session.SessionState.Tick | app.py:172-197 | the result is the resolution of the pending guess, the elapsed time and the target; with no result nothing changes, otherwise exactly that record is appended, the index rises by one, the trigger is re-armed and the session is finished exactly when the index reaches 3 |
| Session.SessionState.CompletionScore | app.py:132-135 | the reported score is the count of correct rounds, and it plus the timed-out rounds is at most 3 |
| Session.SessionState.NewSession | app.py:144-147 | the session becomes inactive with index 0 and an empty log; nothing else changes |
| Session.SessionState.GameLogic | app.py:131-200 | the game area: idle and unchanged outside a session; a finished session reports its score and becomes inactive iff Start New Session was pressed; an armed stimulus is dispatched or fails on the first empty selection; a pending round waits with nothing changed or resolves to the resolution of the pending guess, the elapsed time and the target, re-arming the next stimulus; a finished session without the button is unchanged; a resolved run and a finished run keep the target, start time and pending guess, and a finished run keeps the trigger; the log grows by one record only on a resolution |
| Session.SessionState.Rerun | app.py:104-200 | one run of the script keeps the invariant and makes only a listed phase change; only a note button sets the pending guess and only a dispatch clears it; the log changes only on a resolution or when a finished session is left; a run without Start leaves an inactive session inactive and idle; a refused start reports the first empty selection and changes nothing; a successful start dispatches in the same run; an armed stimulus is dispatched, or fails on the first empty selection in draw order and changes nothing else; a dispatch sets the drawn target, leaves no pending guess, starts the round at `now` and awaits a response; a pending round resolves exactly as the resolution of the guess pressed in this run (or the one already pending), the elapsed time and the target says, so a timeout beats a guess pressed in the same run; a waiting run changes nothing; a resolution appends exactly its record, re-arms the next stimulus and keeps the target and start time; a finished session reports the count of correct rounds, at most 3, keeps the trigger, target and start time, keeps its log without Start New Session and becomes inactive with it |

## Left out

- Tone synthesis: `generate_tone` and the `NOTE_FREQS` table (app.py:25-48) are floating-point signal generation.
- WAV encoding and playback: `note_to_wav`, `play_wave_file` with its missing-file message, and `st.audio` (app.py:51-55, 72-76, 164, 168) are audio I/O. A dispatch is modelled as returning the clip path it would play.
- Session history: `load_session_data` and `save_session_data` (app.py:59-68), and the log write in the completion branch (app.py:137-142), are file I/O. That branch appends the finished session to the history file again on every run while the session stays complete. The model makes no claim that a session is written once.
- Page rendering: page config, sidebar, multiselect widgets, titles, subheaders, the success, warning, error and info messages, and the "20 rounds" text (app.py:80-91, 128, 133, 150-151, 188-194, 200) are presentation. The selections enter as parameters restricted to the offered options.
- Pacing: `time.sleep(0.2)` and `time.sleep(1.5)` (app.py:166, 198) only delay the page. The clock is a `real` parameter.
- Randomness: each `random.choice` is a caller-supplied value drawn from its selection, with no distribution.
- Trainer.Resolution: elapsed time is an exact real difference. The model does not capture floating-point rounding of `time.time()` near the 3-second boundary.
- Session.SessionState.Rerun: each run handles exactly one widget interaction, which is how the host triggers a run. The host's own scheduling and the timing of reruns are not part of this model.
- Session.SessionState.Rerun: takes a Start click as delivered only while no session is active. The run that starts a session draws the Start button before setting `session_active` (app.py:114 then 122), and the run after Start New Session draws it before clearing the flag (app.py:114 then 145), so the drawn enabled state lags the flag by one run. Whether the host delivers a click on a button drawn enabled while a session is active is host behaviour; if it did, app.py:122-125 would reset the log and arm a new stimulus, which this model does not capture.
