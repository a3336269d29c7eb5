/**
 * The mock interview's conversational stage: `startConversational`, the `onopen`,
 * `onmessage`, `onerror` and `onclose` callbacks, and `cleanupAudio`. Beyond the
 * coaching screen it adds a one-time "Microphone connected" notice, a question counter
 * and a concluding phrase that ends the stage. Each callback is one atomic step.
 */
module MockInterview {
  import opened Wrappers
  import opened Text
  import opened Transcript
  import opened Playback
  import opened LiveMessage
  import opened QuestionParser

  datatype InterviewState =
    | Setup | Conversational | TechnicalGenerating | TechnicalSolving | ReportGenerating | Complete

  const Connecting := "Connecting to AI Interviewer..."
  const MicNotice := "Microphone connected. Please respond."
  const MicMarker := "Microphone connected"
  const Conclusion := "That concludes our behavioral section. Please proceed to the next stage."
  const InitAudioFailed := "Failed to initialize audio. Please refresh."
  const ClosedUnexpectedly := "Conversational session ended unexpectedly."
  const QuestionFailed := "Failed to generate a technical question. Please try again."

  function MicFailed(message: string): string {
    "Mic access failed: " + message + ". Please ensure microphone permissions are granted."
  }

  function LiveFailed(message: string): string {
    "Live session failed: " + message + ". Please try again."
  }

  /** Some entry of the log already mentions the microphone. */
  predicate Mentions(log: seq<Entry>) {
    exists i :: 0 <= i < |log| && Contains(log[i].text, MicMarker)
  }

  /** The notice goes in on a turn with model output, once, while the flag is down. */
  predicate NoticeDue(log: seq<Entry>, micConnected: bool, modelOutput: string) {
    !micConnected && modelOutput != "" && !Mentions(log)
  }

  /** The `setTranscription` updater of a completed turn: the notice if due, then the turn. */
  function TurnLog(log: seq<Entry>, micConnected: bool, userInput: string, modelOutput: string): (r: seq<Entry>)
    ensures |log| <= |r| && r[..|log|] == log
    ensures NoticeDue(log, micConnected, modelOutput) ==>
              |r| > |log| && r[|log|] == Entry(System, MicNotice)
    ensures forall i :: |log| <= i < |r| && r[i].author == System ==>
              i == |log| && NoticeDue(log, micConnected, modelOutput)
  {
    var withNotice := log + (if NoticeDue(log, micConnected, modelOutput) then [Entry(System, MicNotice)] else []);
    AppendTurn(withNotice, userInput, modelOutput)
  }

  /** Number of "Microphone connected" notices in a log. */
  function NoticeCount(log: seq<Entry>): nat {
    if log == [] then 0
    else NoticeCount(log[..|log| - 1]) + (if log[|log| - 1] == Entry(System, MicNotice) then 1 else 0)
  }

  lemma {:induction false} NoticeCountAppend(a: seq<Entry>, b: seq<Entry>)
    ensures NoticeCount(a + b) == NoticeCount(a) + NoticeCount(b)
    decreases |b|
  {
    if b == [] {
      assert a + b == a;
    } else {
      assert (a + b)[..|a + b| - 1] == a + b[..|b| - 1];
      NoticeCountAppend(a, b[..|b| - 1]);
    }
  }

  /** A log none of whose entries mentions the microphone holds no notice. */
  lemma {:induction false} NoMentionNoNotice(log: seq<Entry>)
    requires !Mentions(log)
    ensures NoticeCount(log) == 0
    decreases |log|
  {
    if log != [] {
      var front := log[..|log| - 1];
      assert StartsWith(MicNotice, MicMarker);
      assert forall i :: 0 <= i < |front| ==> front[i] == log[i];
      NoMentionNoNotice(front);
    }
  }

  /** Entries of one author other than SYSTEM never count as notices. */
  lemma {:induction false} NoSystemNoNotice(log: seq<Entry>)
    requires forall i :: 0 <= i < |log| ==> log[i].author != System
    ensures NoticeCount(log) == 0
    decreases |log|
  {
    if log != [] {
      NoSystemNoNotice(log[..|log| - 1]);
    }
  }

  /** A completed turn never brings the log to a second "Microphone connected" notice. */
  lemma {:induction false} NoticeAtMostOnce(log: seq<Entry>, micConnected: bool, userInput: string, modelOutput: string)
    requires NoticeCount(log) <= 1
    ensures NoticeCount(TurnLog(log, micConnected, userInput, modelOutput)) <= 1
    ensures NoticeDue(log, micConnected, modelOutput) ==>
              NoticeCount(TurnLog(log, micConnected, userInput, modelOutput)) == 1
    ensures !NoticeDue(log, micConnected, modelOutput) ==>
              NoticeCount(TurnLog(log, micConnected, userInput, modelOutput)) == NoticeCount(log)
  {
    var r := TurnLog(log, micConnected, userInput, modelOutput);
    assert r == log + r[|log|..];
    NoticeCountAppend(log, r[|log|..]);
    TurnNotices(log, micConnected, userInput, modelOutput);
    if NoticeDue(log, micConnected, modelOutput) {
      NoMentionNoNotice(log);
    }
  }

  /** What a turn appends holds one notice when one is due and none otherwise. */
  lemma TurnNotices(log: seq<Entry>, micConnected: bool, userInput: string, modelOutput: string)
    ensures var r := TurnLog(log, micConnected, userInput, modelOutput);
            NoticeCount(r[|log|..]) == if NoticeDue(log, micConnected, modelOutput) then 1 else 0
  {
    var tail := TurnLog(log, micConnected, userInput, modelOutput)[|log|..];
    if NoticeDue(log, micConnected, modelOutput) {
      assert tail == [tail[0]] + tail[1..];
      NoticeCountAppend([tail[0]], tail[1..]);
      assert [tail[0]][..0] == [];
      NoSystemNoNotice(tail[1..]);
    } else {
      NoSystemNoNotice(tail);
    }
  }

  /** The log a fresh session opens with holds no notice, so sessions keep at most one. */
  lemma FreshLogHasNoNotice()
    ensures NoticeCount([Entry(System, Connecting)]) == 0
  {
    assert [Entry(System, Connecting)][..0] == [];
  }

  /** The session's refs and its active flag, taken together. */
  datatype Wiring = Wiring(session: bool, mediaStream: bool, scriptProcessor: bool, streamSource: bool,
                           inputContext: ContextRef, outputContext: ContextRef, isSessionActive: bool)

  class InterviewSession {
    var state: InterviewState
    var error: string
    var transcription: seq<Entry>
    var questionCount: nat
    var isSessionActive: bool
    var technicalQuestion: string
    // Refs, true when they hold an object; contexts are nulled on cleanup.
    var session: bool
    var mediaStream: bool
    var scriptProcessor: bool
    var streamSource: bool
    var inputContext: ContextRef
    var outputContext: ContextRef
    var isMicConnected: bool
    var pendingInput: string
    var pendingOutput: string
    const playback: PlaybackQueue

    ghost predicate Valid()
      reads this, playback
    {
      playback.Valid()
    }

    /** The refs and the session flag, which only start, open and cleanup change. */
    function Refs(): Wiring
      reads this
    {
      Wiring(session, mediaStream, scriptProcessor, streamSource, inputContext, outputContext, isSessionActive)
    }

    /** The state `cleanupAudio` leaves behind. */
    ghost predicate CleanedUp()
      reads this, playback
    {
      && !session && !mediaStream && !scriptProcessor && !streamSource
      && inputContext == NoContext && outputContext == NoContext
      && playback.sources == {} && playback.nextStartTime == 0.0
      && !isMicConnected && !isSessionActive
    }

    constructor ()
      ensures Valid() && fresh(playback) && CleanedUp()
      ensures state == Setup && error == "" && transcription == [] && questionCount == 0
      ensures technicalQuestion == "" && pendingInput == "" && pendingOutput == ""
    {
      state, error, transcription, questionCount := Setup, "", [], 0;
      isSessionActive, technicalQuestion := false, "";
      session, mediaStream, scriptProcessor, streamSource := false, false, false, false;
      inputContext, outputContext := NoContext, NoContext;
      isMicConnected, pendingInput, pendingOutput := false, "", "";
      playback := new PlaybackQueue();
    }

    /**
     * `cleanupAudio`: close the session, stop the stream, disconnect the nodes, close and
     * null both contexts, stop and forget every source, zero the cursor, lower the mic
     * flag and mark the session inactive. A second run changes nothing.
     */
    method CleanupAudio()
      requires Valid()
      modifies this`session, this`mediaStream, this`scriptProcessor, this`streamSource,
               this`inputContext, this`outputContext, this`isMicConnected, this`isSessionActive,
               playback`sources, playback`stopped, playback`nextStartTime
      ensures Valid() && CleanedUp()
      ensures playback.stopped == old(playback.stopped) + old(playback.sources)
      ensures old(CleanedUp()) ==> unchanged(this)
      ensures old(CleanedUp()) ==> playback.stopped == old(playback.stopped) && playback.sources == old(playback.sources)
      ensures old(CleanedUp()) ==> playback.nextStartTime == old(playback.nextStartTime) && playback.nodesCreated == old(playback.nodesCreated)
    {
      ReleaseRefs();
      playback.Reset();
    }

    /** The ref half of `cleanupAudio`: every ref nulled, the mic flag down, the session inactive. */
    method ReleaseRefs()
      modifies this`session, this`mediaStream, this`scriptProcessor, this`streamSource,
               this`inputContext, this`outputContext, this`isMicConnected, this`isSessionActive
      ensures !session && !mediaStream && !scriptProcessor && !streamSource
      ensures inputContext == NoContext && outputContext == NoContext
      ensures !isMicConnected && !isSessionActive
    {
      session := false;
      mediaStream := false;
      scriptProcessor := false;
      streamSource := false;
      inputContext := NoContext;
      outputContext := NoContext;
      isMicConnected := false;
      isSessionActive := false;
    }

    /** `startConversational`; `micGranted` is the outcome of the microphone request. */
    method StartConversational(micGranted: bool, micError: string)
      requires Valid()
      modifies this`state, this`transcription, this`questionCount, this`isMicConnected, this`error,
               this`mediaStream, this`inputContext, this`outputContext, this`session
      ensures Valid()
      ensures transcription == [Entry(System, Connecting)] && questionCount == 0 && !isMicConnected
      ensures micGranted ==>
                && state == Conversational && error == ""
                && mediaStream && session && inputContext == Running && outputContext == Running
      ensures !micGranted ==>
                && state == Setup && error == MicFailed(micError)
                && mediaStream == old(mediaStream) && session == old(session)
                && inputContext == old(inputContext) && outputContext == old(outputContext)
    {
      transcription := [Entry(System, Connecting)];
      questionCount := 0;
      isMicConnected := false;
      if !micGranted {
        state, error := Setup, MicFailed(micError);
        return;
      }
      state, error := Conversational, "";
      mediaStream := true;
      inputContext, outputContext := Running, Running;
      session := true;
    }

    /** `onopen`: without an input context or a stream, report and clean up; else go live. */
    method Opened()
      requires Valid()
      modifies this`error, this`session, this`mediaStream, this`scriptProcessor, this`streamSource,
               this`inputContext, this`outputContext, this`isMicConnected, this`isSessionActive,
               playback`sources, playback`stopped, playback`nextStartTime
      ensures Valid()
      ensures old(inputContext) == NoContext || !old(mediaStream) ==>
                && CleanedUp() && error == InitAudioFailed
                && playback.stopped == old(playback.stopped) + old(playback.sources)
      ensures old(inputContext) != NoContext && old(mediaStream) ==>
                && streamSource && scriptProcessor && isSessionActive
                && session == old(session) && mediaStream == old(mediaStream)
                && inputContext == old(inputContext) && outputContext == old(outputContext)
                && isMicConnected == old(isMicConnected)
                && error == old(error) && unchanged(playback)
    {
      if inputContext == NoContext || !mediaStream {
        error := InitAudioFailed;
        CleanupAudio();
        return;
      }
      streamSource := true;
      scriptProcessor := true;
      isSessionActive := true;
    }

    /**
     * `onmessage`: fragments, then audio scheduling, then the turn flush (which may end
     * the stage), then interruption. Returns whether the concluding phrase ended the stage.
     */
    method Receive(msg: ServerMessage, now: Seconds) returns (concluded: bool)
      requires Valid()
      modifies this, playback
      ensures Valid()
      ensures var inBuf := old(pendingInput) + Fragment(msg.inputTranscription);
              var outBuf := old(pendingOutput) + Fragment(msg.outputTranscription);
              && (concluded <==> msg.turnComplete && Contains(Trim(outBuf), Conclusion))
              && (msg.turnComplete ==>
                    && transcription == TurnLog(old(transcription), old(isMicConnected), Trim(inBuf), Trim(outBuf))
                    && questionCount == NextQuestionCount(old(questionCount), Trim(outBuf))
                    && pendingInput == "" && pendingOutput == "")
              && (!msg.turnComplete ==>
                    && transcription == old(transcription) && questionCount == old(questionCount)
                    && pendingInput == inBuf && pendingOutput == outBuf)
              && (!concluded && msg.turnComplete ==>
                    isMicConnected == (old(isMicConnected) || NoticeDue(old(transcription), old(isMicConnected), Trim(outBuf))))
      ensures concluded ==> CleanedUp() && state == TechnicalGenerating && technicalQuestion == "" && error == ""
      ensures !concluded ==>
                && state == old(state) && error == old(error) && technicalQuestion == old(technicalQuestion)
                && Refs() == old(Refs())
      ensures !msg.turnComplete ==> isMicConnected == old(isMicConnected)
      ensures var plays := msg.audio != "" && old(outputContext) != NoContext;
              var s := Source(old(playback.nodesCreated), StartAt(old(playback.nextStartTime), now), msg.audioDuration);
              && playback.nodesCreated == old(playback.nodesCreated) + (if plays then 1 else 0)
              && playback.stopped == (if concluded || msg.interrupted
                                      then old(playback.stopped) + old(playback.sources) + (if plays then {s} else {})
                                      else old(playback.stopped))
              && (!concluded && msg.interrupted ==> playback.sources == {} && playback.nextStartTime == 0.0)
              && (!concluded && !msg.interrupted && plays ==>
                    playback.sources == old(playback.sources) + {s} && playback.nextStartTime == End(s))
              && (!concluded && !msg.interrupted && !plays ==>
                    playback.sources == old(playback.sources) && playback.nextStartTime == old(playback.nextStartTime))
    {
      BufferFragments(msg);
      ScheduleAudio(msg, now);
      concluded := false;
      if msg.turnComplete {
        concluded := FlushTurn();
        if concluded {
          return;
        }
      }
      if msg.interrupted {
        playback.Interrupt();
      }
    }

    /** Both transcription fragments, appended to their pending buffers in arrival order. */
    method BufferFragments(msg: ServerMessage)
      modifies this`pendingInput, this`pendingOutput
      ensures pendingInput == old(pendingInput) + Fragment(msg.inputTranscription)
      ensures pendingOutput == old(pendingOutput) + Fragment(msg.outputTranscription)
    {
      if msg.inputTranscription.Some? {
        pendingInput := pendingInput + msg.inputTranscription.value;
      }
      if msg.outputTranscription.Some? {
        pendingOutput := pendingOutput + msg.outputTranscription.value;
      }
    }

    /** An audio payload, when there is one and an output context exists, joins the queue. */
    method ScheduleAudio(msg: ServerMessage, now: Seconds)
      requires Valid()
      modifies playback`nextStartTime, playback`sources, playback`nodesCreated
      ensures Valid()
      ensures var plays := msg.audio != "" && outputContext != NoContext;
              var s := Source(old(playback.nodesCreated), StartAt(old(playback.nextStartTime), now), msg.audioDuration);
              && playback.nodesCreated == old(playback.nodesCreated) + (if plays then 1 else 0)
              && (plays ==> playback.sources == old(playback.sources) + {s} && playback.nextStartTime == End(s))
              && (!plays ==> playback.sources == old(playback.sources) && playback.nextStartTime == old(playback.nextStartTime))
    {
      if msg.audio != "" && outputContext != NoContext {
        var _ := playback.Schedule(now, msg.audioDuration);
      }
    }

    /**
     * The `turnComplete` branch: the notice if due, the trimmed user and model text, the
     * question count, empty buffers, and on the concluding phrase cleanup and the switch
     * to technical-question generation.
     */
    method FlushTurn() returns (concluded: bool)
      requires Valid()
      modifies this`transcription, this`isMicConnected, this`questionCount, this`pendingInput, this`pendingOutput,
               this`session, this`mediaStream, this`scriptProcessor, this`streamSource,
               this`inputContext, this`outputContext, this`isSessionActive,
               this`state, this`technicalQuestion, this`error,
               playback`sources, playback`stopped, playback`nextStartTime
      ensures Valid()
      ensures var userInput := Trim(old(pendingInput));
              var modelOutput := Trim(old(pendingOutput));
              && transcription == TurnLog(old(transcription), old(isMicConnected), userInput, modelOutput)
              && questionCount == NextQuestionCount(old(questionCount), modelOutput)
              && (concluded <==> Contains(modelOutput, Conclusion))
              && (!concluded ==> isMicConnected == (old(isMicConnected) || NoticeDue(old(transcription), old(isMicConnected), modelOutput)))
      ensures pendingInput == "" && pendingOutput == ""
      ensures concluded ==>
                && CleanedUp() && state == TechnicalGenerating && technicalQuestion == "" && error == ""
                && playback.stopped == old(playback.stopped) + old(playback.sources)
      ensures !concluded ==>
                && state == old(state) && error == old(error) && technicalQuestion == old(technicalQuestion)
                && Refs() == old(Refs()) && unchanged(playback)
    {
      var modelOutput := RecordTurn();
      concluded := Contains(modelOutput, Conclusion);
      if concluded {
        Conclude();
      }
    }

    /** The concluding phrase: `cleanupAudio`, then the switch to technical-question generation. */
    method Conclude()
      requires Valid()
      modifies this`session, this`mediaStream, this`scriptProcessor, this`streamSource,
               this`inputContext, this`outputContext, this`isMicConnected, this`isSessionActive,
               this`state, this`technicalQuestion, this`error,
               playback`sources, playback`stopped, playback`nextStartTime
      ensures Valid() && CleanedUp()
      ensures playback.stopped == old(playback.stopped) + old(playback.sources)
      ensures state == TechnicalGenerating && technicalQuestion == "" && error == ""
    {
      CleanupAudio();
      BeginTechnicalQuestion();
    }

    /** The log, counter and flag updates of a completed turn; returns the trimmed model text. */
    method RecordTurn() returns (modelOutput: string)
      modifies this`transcription, this`isMicConnected, this`questionCount, this`pendingInput, this`pendingOutput
      ensures modelOutput == Trim(old(pendingOutput))
      ensures transcription == TurnLog(old(transcription), old(isMicConnected), Trim(old(pendingInput)), modelOutput)
      ensures questionCount == NextQuestionCount(old(questionCount), modelOutput)
      ensures isMicConnected == (old(isMicConnected) || NoticeDue(old(transcription), old(isMicConnected), modelOutput))
      ensures pendingInput == "" && pendingOutput == ""
    {
      var userInput := Trim(pendingInput);
      modelOutput := Trim(pendingOutput);
      var noticeDue := NoticeDue(transcription, isMicConnected, modelOutput);
      transcription := TurnLog(transcription, isMicConnected, userInput, modelOutput);
      if noticeDue {
        isMicConnected := true;
      }
      questionCount := NextQuestionCount(questionCount, modelOutput);
      pendingInput := "";
      pendingOutput := "";
    }

    /** The synchronous start of `generateTechnicalQuestion`. */
    method BeginTechnicalQuestion()
      modifies this`state, this`technicalQuestion, this`error
      ensures state == TechnicalGenerating && technicalQuestion == "" && error == ""
    {
      state := TechnicalGenerating;
      technicalQuestion := "";
      error := "";
    }

    /** The question request settles: the question text, or `None` on failure. */
    method TechnicalQuestionSettled(question: Option<string>)
      modifies this`state, this`technicalQuestion, this`error
      ensures question.Some? ==> technicalQuestion == question.value && state == TechnicalSolving && error == old(error)
      ensures question.None? ==>
                error == QuestionFailed && state == Setup && technicalQuestion == old(technicalQuestion)
    {
      match question {
        case Some(text) =>
          technicalQuestion := text;
          state := TechnicalSolving;
        case None =>
          error := QuestionFailed;
          state := Setup;
      }
    }

    /** `onerror`: clean up, report, back to setup. */
    method OnError(message: string)
      requires Valid()
      modifies this`state, this`error, this`session, this`mediaStream, this`scriptProcessor, this`streamSource,
               this`inputContext, this`outputContext, this`isMicConnected, this`isSessionActive,
               playback`sources, playback`stopped, playback`nextStartTime
      ensures Valid() && CleanedUp()
      ensures playback.stopped == old(playback.stopped) + old(playback.sources)
      ensures error == LiveFailed(message) && state == Setup
    {
      CleanupAudio();
      error := LiveFailed(message);
      state := Setup;
    }

    /** `onclose`: clean up; a close during the conversational stage sends the user back to setup. */
    method OnClose()
      requires Valid()
      modifies this`state, this`error, this`session, this`mediaStream, this`scriptProcessor, this`streamSource,
               this`inputContext, this`outputContext, this`isMicConnected, this`isSessionActive,
               playback`sources, playback`stopped, playback`nextStartTime
      ensures Valid() && CleanedUp()
      ensures playback.stopped == old(playback.stopped) + old(playback.sources)
      ensures (state, error) == ClosedStage(old(state), old(state), old(error))
    {
      CleanupAudio();
      if state == Conversational {
        error := ClosedUnexpectedly;
        state := Setup;
      }
    }

    /**
     * `onclose` as the callback is built: it tests the stage captured when
     * `startConversational` ran, not the current one.
     */
    method OnCloseAsWritten(captured: InterviewState)
      requires Valid()
      modifies this`state, this`error, this`session, this`mediaStream, this`scriptProcessor, this`streamSource,
               this`inputContext, this`outputContext, this`isMicConnected, this`isSessionActive,
               playback`sources, playback`stopped, playback`nextStartTime
      ensures Valid() && CleanedUp()
      ensures playback.stopped == old(playback.stopped) + old(playback.sources)
      ensures (state, error) == ClosedStage(captured, old(state), old(error))
    {
      CleanupAudio();
      if captured == Conversational {
        error := ClosedUnexpectedly;
        state := Setup;
      }
    }
  }

  /** Stage and error after `onclose`, when the stage test reads `tested` and the stage is `current`. */
  function ClosedStage(tested: InterviewState, current: InterviewState, error: string): (r: (InterviewState, string))
    ensures tested == Conversational ==> r == (Setup, ClosedUnexpectedly)
    ensures tested != Conversational ==> r == (current, error)
  {
    if tested == Conversational then (Setup, ClosedUnexpectedly) else (current, error)
  }

  /**
   * The start button is only on the setup screen, so the stage captured by the callbacks is
   * always `Setup`; a close mid-interview then leaves the screen in the conversational stage
   * with no error and no live session.
   */
  lemma StaleCloseKeepsStage(error: string)
    ensures ClosedStage(Setup, Conversational, error) == (Conversational, error)
  {
  }

  /** Testing the current stage, a close never leaves the screen conversational, and reports why. */
  lemma CloseLeavesConversation(stage: InterviewState, error: string)
    ensures ClosedStage(stage, stage, error).0 != Conversational
    ensures stage == Conversational ==> ClosedStage(stage, stage, error).1 == ClosedUnexpectedly
  {
  }
}
