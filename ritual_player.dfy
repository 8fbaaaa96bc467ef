/** Priest mode's ritual player: a cursor over the ritual's steps and a playing flag, moved by the
    previous, next, play and pause buttons and by the end of the audio. */
module RitualPlayback {
  import opened Wrappers
  import opened Text
  import opened SpeechClient

  /** How the synthesis request of a step ends: its result, or an exception. */
  datatype StepOutcome = Resolved(result: SpeechResult) | Threw

  /** The counter under the buttons. */
  function StepCounter(currentStep: nat, count: nat): (caption: string)
    ensures caption == "Step " + NatToString(currentStep + 1) + " of " + NatToString(count)
  {
    "Step " + NatToString(currentStep + 1) + " of " + NatToString(count)
  }

  class RitualPlayer {
    /** The ritual's steps, already parsed from their JSON text. */
    const steps: seq<string>
    var currentStep: int
    var isPlaying: bool
    var audioUrl: Option<string>
    var selectedVoice: string

    /** The cursor is on a step, or at 0 when there are none. */
    predicate Valid()
      reads this
    {
      0 <= currentStep && (if steps == [] then currentStep == 0 else currentStep < |steps|)
    }

    constructor(steps: seq<string>)
      ensures this.steps == steps && Valid()
      ensures currentStep == 0 && !isPlaying && audioUrl.None? && selectedVoice == SpiritualVoices[0].id
    {
      this.steps := steps;
      currentStep := 0;
      isPlaying := false;
      audioUrl := None;
      selectedVoice := SpiritualVoices[0].id;
    }

    /** `steps[currentStep]` is a non-empty string. */
    predicate HasPlayableStep()
      reads this
    {
      0 <= currentStep < |steps| && steps[currentStep] != ""
    }

    /** The next button's `disabled`: it is off exactly when the button would move the cursor, except
        in a ritual without steps, where the button stays enabled and does nothing. */
    function NextDisabled(): (disabled: bool)
      reads this
      ensures Valid() && steps != [] ==> (disabled <==> !(currentStep < |steps| - 1))
      ensures Valid() && steps == [] ==> !disabled
    {
      currentStep == |steps| - 1
    }

    /** The previous button's `disabled`: it is off exactly when the button would move the cursor. */
    function PreviousDisabled(): (disabled: bool)
      reads this
      ensures Valid() ==> (disabled <==> !(currentStep > 0))
    {
      currentStep == 0
    }

    function PlayIcon(): (icon: string)
      reads this
      ensures icon == "pause" <==> isPlaying
      ensures icon == "play_arrow" <==> !isPlaying
    {
      if isPlaying then "pause" else "play_arrow"
    }

    /** Stops the audio. */
    method PausePlayback()
      modifies this`isPlaying
      ensures !isPlaying
    {
      isPlaying := false;
    }

    /** The audio element's `ended` event. */
    method OnEnded()
      modifies this`isPlaying
      ensures !isPlaying
    {
      isPlaying := false;
    }

    /** Moves to the following step unless on the last one (or there are none), and stops playing. */
    method NextStep()
      requires Valid()
      modifies this`currentStep, this`isPlaying
      ensures Valid()
      ensures old(currentStep) < |steps| - 1 ==> currentStep == old(currentStep) + 1 && !isPlaying
      ensures old(currentStep) >= |steps| - 1 ==> currentStep == old(currentStep) && isPlaying == old(isPlaying)
      ensures old(NextDisabled()) ==> currentStep == old(currentStep) && isPlaying == old(isPlaying)
    {
      if currentStep < |steps| - 1 {
        currentStep := currentStep + 1;
        PausePlayback();
      }
    }

    /** Moves to the preceding step unless on the first, and stops playing. */
    method PreviousStep()
      requires Valid()
      modifies this`currentStep, this`isPlaying
      ensures Valid()
      ensures old(currentStep) > 0 ==> currentStep == old(currentStep) - 1 && !isPlaying
      ensures old(currentStep) == 0 ==> currentStep == 0 && isPlaying == old(isPlaying)
      ensures old(PreviousDisabled()) ==> currentStep == old(currentStep) && isPlaying == old(isPlaying)
      ensures !old(PreviousDisabled()) ==> currentStep == old(currentStep) - 1 && !isPlaying
    {
      if currentStep > 0 {
        currentStep := currentStep - 1;
        PausePlayback();
      }
    }

    /** Speaks the current step: nothing happens without a playable step; otherwise the player is
        marked playing, the step's text is requested in the selected voice (`request`), a returned URL
        becomes the audio source, and an exception stops playing. A result without audio leaves the
        player marked playing. */
    method PlayStep(outcome: StepOutcome) returns (request: Option<(string, string)>)
      modifies this`isPlaying, this`audioUrl
      ensures !old(HasPlayableStep()) ==> request.None? && isPlaying == old(isPlaying) && audioUrl == old(audioUrl)
      ensures old(HasPlayableStep()) ==> request == Some((steps[currentStep], selectedVoice))
      ensures old(HasPlayableStep()) && outcome.Threw? ==> !isPlaying && audioUrl == old(audioUrl)
      ensures old(HasPlayableStep()) && outcome.Resolved? ==>
        && isPlaying
        && (if outcome.result.success && Present(outcome.result.audioUrl) then audioUrl == outcome.result.audioUrl
            else audioUrl == old(audioUrl))
    {
      if !HasPlayableStep() {
        return None;
      }
      request := Some((steps[currentStep], selectedVoice));
      isPlaying := true;
      match outcome
      case Resolved(result) =>
        if result.success && Present(result.audioUrl) {
          audioUrl := result.audioUrl;
        }
      case Threw =>
        isPlaying := false;
    }

    /** The round button: pause while playing, play otherwise. */
    method PlayButton(outcome: StepOutcome) returns (request: Option<(string, string)>)
      modifies this`isPlaying, this`audioUrl
      ensures old(isPlaying) ==> request.None? && !isPlaying && audioUrl == old(audioUrl)
      ensures !old(isPlaying) && !old(HasPlayableStep()) ==> request.None? && !isPlaying
      ensures !old(isPlaying) && old(HasPlayableStep()) ==> request == Some((steps[currentStep], selectedVoice))
      ensures !old(isPlaying) && old(HasPlayableStep()) ==> (isPlaying <==> outcome.Resolved?)
    {
      if isPlaying {
        PausePlayback();
        request := None;
      } else {
        request := PlayStep(outcome);
      }
    }
  }
}
