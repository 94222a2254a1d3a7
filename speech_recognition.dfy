/**
 * The dictation composable: the state shared with the page (`isListening`,
 * `transcript`, `interimTranscript`, `error`), the closure variables
 * `manualStop` and `previousText`, the recognition engine's event handlers
 * and the public `start`, `stop` and `clear`.
 *
 * The browser's recognition engine is not modelled: its events are the
 * methods `OnStart`, `OnResult`, `OnError` and `OnEnd`, which the engine
 * may call in any order, and the calls the composable makes on it are
 * appended to `engineCalls`. The 200 ms restart timer is the counter
 * `pendingRestarts`; `FireRestart` is the timer firing, told whether the
 * engine's `start` throws.
 */
module SpeechRecognition {
  import opened Wrappers
  import opened Text

  /** One entry of `event.results`: whether it is final, and the text of its
      first alternative. */
  datatype SpeechResult = SpeechResult(isFinal: bool, text: string)

  /** A call the composable makes on the recognition engine. */
  datatype EngineCall = StartCall | StopCall

  const UnsupportedMessage: string := "Браузер не поддерживает распознавание речи"
  const NoSpeech: string := "no-speech"

  /** The texts of the final results, each followed by a space, in order. */
  function FinalText(results: seq<SpeechResult>): string {
    if results == [] then ""
    else
      var last := results[|results| - 1];
      FinalText(results[..|results| - 1]) + (if last.isFinal then last.text + " " else "")
  }

  /** The texts of the results that are not final yet, in order. */
  function InterimText(results: seq<SpeechResult>): string {
    if results == [] then ""
    else
      var last := results[|results| - 1];
      InterimText(results[..|results| - 1]) + (if last.isFinal then "" else last.text)
  }

  /** The texts of the final results, in order. */
  function Finals(results: seq<SpeechResult>): (r: seq<string>)
    ensures |r| <= |results|
  {
    if results == [] then []
    else
      var last := results[|results| - 1];
      Finals(results[..|results| - 1]) + (if last.isFinal then [last.text] else [])
  }

  /** Each text followed by a space, concatenated. */
  function Spaced(texts: seq<string>): string {
    if texts == [] then "" else Spaced(texts[..|texts| - 1]) + texts[|texts| - 1] + " "
  }

  lemma {:induction false} SpacedAppend(a: seq<string>, b: seq<string>)
    ensures Spaced(a + b) == Spaced(a) + Spaced(b)
    decreases |b|
  {
    if b == [] {
      assert a + b == a;
    } else {
      var b' := b[..|b| - 1];
      assert (a + b)[..|a + b| - 1] == a + b';
      assert (a + b)[|a + b| - 1] == b[|b| - 1];
      SpacedAppend(a, b');
      Assoc(Spaced(a), Spaced(b'), b[|b| - 1] + " ");
      assert Spaced(b) == Spaced(b') + (b[|b| - 1] + " ");
      assert Spaced(a + b) == Spaced(a + b') + (b[|b| - 1] + " ");
    }
  }

  /** The transcript of a session is exactly the final texts, in result
      order, each followed by one space: nothing is repeated or dropped. */
  lemma {:induction false} FinalTextIsSpacedFinals(results: seq<SpeechResult>)
    ensures FinalText(results) == Spaced(Finals(results))
  {
    if results != [] {
      var init := results[..|results| - 1];
      var last := results[|results| - 1];
      FinalTextIsSpacedFinals(init);
      if last.isFinal {
        SpacedAppend(Finals(init), [last.text]);
        assert [last.text][..0] == [];
      } else {
        assert Finals(init) + [] == Finals(init);
      }
    }
  }

  lemma {:induction false} ResultTextsAppend(a: seq<SpeechResult>, b: seq<SpeechResult>)
    ensures FinalText(a + b) == FinalText(a) + FinalText(b)
    ensures InterimText(a + b) == InterimText(a) + InterimText(b)
    decreases |b|
  {
    if b == [] {
      assert a + b == a;
    } else {
      var b' := b[..|b| - 1];
      var last := b[|b| - 1];
      assert (a + b)[..|a + b| - 1] == a + b';
      assert (a + b)[|a + b| - 1] == last;
      ResultTextsAppend(a, b');
      Assoc(FinalText(a), FinalText(b'), if last.isFinal then last.text + " " else "");
      Assoc(InterimText(a), InterimText(b'), if last.isFinal then "" else last.text);
    }
  }

  /** An automatic restart loses nothing: the text saved from one session
      followed by the next session's finals is what a single session that
      had delivered both result lists would show. */
  lemma RestartLosesNothing(previous: string, first: seq<SpeechResult>, second: seq<SpeechResult>)
    ensures (previous + FinalText(first)) + FinalText(second) == previous + FinalText(first + second)
  {
    ResultTextsAppend(first, second);
  }

  /** The messages of the known error codes; any other code is shown as is. */
  function ErrorMessage(code: string): (r: string)
    ensures code !in {"no-speech", "audio-capture", "not-allowed", "network"} ==> r == code
  {
    if code == "no-speech" then "Речь не обнаружена"
    else if code == "audio-capture" then "Микрофон не найден"
    else if code == "not-allowed" then "Доступ к микрофону запрещён"
    else if code == "network" then "Ошибка сети"
    else code
  }

  class Dictation {
    /** Whether the browser offers a recognition engine. */
    const supported: bool
    var isListening: bool
    var transcript: string
    var interimTranscript: string
    var error: Option<string>
    var manualStop: bool
    var previousText: string
    /** Restart timers set by `onend` that have not fired yet. */
    var pendingRestarts: nat
    var engineCalls: seq<EngineCall>

    /** Without an engine nothing is ever started or listened to. */
    ghost predicate Valid()
      reads this
    {
      !supported ==> !isListening && engineCalls == [] && pendingRestarts == 0
    }

    constructor (supported: bool)
      ensures Valid() && this.supported == supported
      ensures !isListening && transcript == "" && interimTranscript == "" && error == None
      ensures !manualStop && previousText == "" && pendingRestarts == 0 && engineCalls == []
    {
      this.supported := supported;
      isListening := false;
      transcript := "";
      interimTranscript := "";
      error := None;
      manualStop := false;
      previousText := "";
      pendingRestarts := 0;
      engineCalls := [];
    }

    /** `recognition.onstart`. */
    method OnStart()
      requires Valid() && supported
      modifies this
      ensures Valid()
      ensures isListening && error == None
      ensures transcript == old(transcript) && interimTranscript == old(interimTranscript)
      ensures manualStop == old(manualStop) && previousText == old(previousText)
      ensures pendingRestarts == old(pendingRestarts) && engineCalls == old(engineCalls)
    {
      isListening := true;
      error := None;
    }

    /** `recognition.onresult`: rebuilds both texts from the whole result
        list, never appending to what was shown before. */
    method OnResult(results: seq<SpeechResult>)
      requires Valid() && supported
      modifies this
      ensures Valid()
      ensures transcript == previousText + FinalText(results)
      ensures interimTranscript == InterimText(results)
      ensures isListening == old(isListening) && error == old(error)
      ensures manualStop == old(manualStop) && previousText == old(previousText)
      ensures pendingRestarts == old(pendingRestarts) && engineCalls == old(engineCalls)
    {
      var sessionFinal := "";
      var interim := "";
      var i := 0;
      while i < |results|
        invariant i <= |results|
        invariant sessionFinal == FinalText(results[..i])
        invariant interim == InterimText(results[..i])
      {
        var result := results[i];
        assert results[..i + 1][..i] == results[..i];
        if result.isFinal {
          sessionFinal := sessionFinal + result.text + " ";
        } else {
          interim := interim + result.text;
        }
        i := i + 1;
      }
      assert results[..i] == results;
      transcript := previousText + sessionFinal;
      interimTranscript := interim;
    }

    /** `recognition.onerror`: silence is ignored; any other error is shown
        (mapped when known) and listening ends. */
    method OnError(code: string)
      requires Valid() && supported
      modifies this
      ensures Valid()
      ensures code == NoSpeech ==>
                isListening == old(isListening) && error == old(error)
      ensures code != NoSpeech ==> !isListening && error == Some(ErrorMessage(code))
      ensures transcript == old(transcript) && interimTranscript == old(interimTranscript)
      ensures manualStop == old(manualStop) && previousText == old(previousText)
      ensures pendingRestarts == old(pendingRestarts) && engineCalls == old(engineCalls)
    {
      if code == NoSpeech {
        return;
      }
      error := Some(ErrorMessage(code));
      isListening := false;
    }

    /** `recognition.onend`: an end the user did not ask for, while
        listening, saves the transcript and sets the restart timer; any
        other end stops listening. */
    method OnEnd()
      requires Valid() && supported
      modifies this
      ensures Valid()
      ensures !old(manualStop) && old(isListening) ==>
                && previousText == old(transcript) && pendingRestarts == old(pendingRestarts) + 1
                && isListening
      ensures old(manualStop) || !old(isListening) ==>
                && previousText == old(previousText) && pendingRestarts == old(pendingRestarts)
                && !isListening
      ensures transcript == old(transcript) && interimTranscript == old(interimTranscript)
      ensures error == old(error) && manualStop == old(manualStop) && engineCalls == old(engineCalls)
    {
      if !manualStop && isListening {
        previousText := transcript;
        pendingRestarts := pendingRestarts + 1;
      } else {
        isListening := false;
      }
    }

    /** The restart timer fires: the engine is started again, or, when its
        `start` throws, listening ends. */
    method FireRestart(startThrows: bool)
      requires Valid() && pendingRestarts > 0
      modifies this
      ensures Valid()
      ensures pendingRestarts == old(pendingRestarts) - 1
      ensures startThrows ==> !isListening && engineCalls == old(engineCalls)
      ensures !startThrows ==> isListening == old(isListening) && engineCalls == old(engineCalls) + [StartCall]
      ensures transcript == old(transcript) && interimTranscript == old(interimTranscript)
      ensures error == old(error) && manualStop == old(manualStop) && previousText == old(previousText)
    {
      pendingRestarts := pendingRestarts - 1;
      if startThrows {
        isListening := false;
      } else {
        engineCalls := engineCalls + [StartCall];
      }
    }

    /** `start()`: without an engine only the error is set; otherwise every
        text and the manual-stop flag are reset and the engine is started. */
    method Start()
      requires Valid()
      modifies this
      ensures Valid()
      ensures !supported ==>
                && error == Some(UnsupportedMessage)
                && isListening == old(isListening) && transcript == old(transcript)
                && interimTranscript == old(interimTranscript) && manualStop == old(manualStop)
                && previousText == old(previousText) && engineCalls == old(engineCalls)
      ensures supported ==>
                && !manualStop && previousText == "" && error == None
                && transcript == "" && interimTranscript == ""
                && isListening == old(isListening)
                && engineCalls == old(engineCalls) + [StartCall]
      ensures pendingRestarts == old(pendingRestarts)
    {
      if !supported {
        error := Some(UnsupportedMessage);
        return;
      }
      manualStop := false;
      previousText := "";
      error := None;
      transcript := "";
      interimTranscript := "";
      engineCalls := engineCalls + [StartCall];
    }

    /** `stop()`: only while listening, marks the stop as the user's and
        stops the engine. */
    method Stop()
      requires Valid()
      modifies this
      ensures Valid()
      ensures supported && old(isListening) ==>
                manualStop && engineCalls == old(engineCalls) + [StopCall]
      ensures !(supported && old(isListening)) ==>
                manualStop == old(manualStop) && engineCalls == old(engineCalls)
      ensures isListening == old(isListening) && transcript == old(transcript)
      ensures interimTranscript == old(interimTranscript) && error == old(error)
      ensures previousText == old(previousText) && pendingRestarts == old(pendingRestarts)
    {
      if supported && isListening {
        manualStop := true;
        engineCalls := engineCalls + [StopCall];
      }
    }

    /** `clear()`: empties the texts; listening and the error stay. */
    method Clear()
      requires Valid()
      modifies this
      ensures Valid()
      ensures transcript == "" && interimTranscript == "" && previousText == ""
      ensures isListening == old(isListening) && error == old(error)
      ensures manualStop == old(manualStop) && pendingRestarts == old(pendingRestarts)
      ensures engineCalls == old(engineCalls)
    {
      transcript := "";
      interimTranscript := "";
      previousText := "";
    }
  }
}
