/** The voice assistant panel: it listens for one command, shows the
    transcript, picks a spoken response by keyword and reads it aloud at
    rate 0.8. The recognizer and the synthesizer are outside the model;
    their presence is a constant and their callbacks are methods. */
module VoiceInteraction {
  import opened Optional
  import opened Text
  import opened Speech

  /** The response the panel gives: one of six openings, or the fallback
      that repeats what was heard. */
  datatype Answer = Opening(topic: string) | Heard(command: string)

  /** The keywords of each opening, in the order they are tested. */
  const ResponseKeywords: seq<(string, seq<string>)> := [
    ("barcode", ["scan", "barcode"]),
    ("community", ["community", "forum"]),
    ("money", ["money", "currency"]),
    ("face", ["face", "person"]),
    ("volunteer", ["help", "volunteer"]),
    ("settings", ["settings", "preferences"])
  ]

  /** The keyword chain of processVoiceCommand over the lower-cased command. */
  function Respond(command: string): Answer
  {
    var m := Lower(command);
    if Contains(m, "scan") || Contains(m, "barcode") then Opening("barcode")
    else if Contains(m, "community") || Contains(m, "forum") then Opening("community")
    else if Contains(m, "money") || Contains(m, "currency") then Opening("money")
    else if Contains(m, "face") || Contains(m, "person") then Opening("face")
    else if Contains(m, "help") || Contains(m, "volunteer") then Opening("volunteer")
    else if Contains(m, "settings") || Contains(m, "preferences") then Opening("settings")
    else Heard(command)
  }

  /** The fallback's fixed opening, before the quoted command. */
  const HeardPrefix: string := "I heard: \""

  /** The text shown and spoken for an answer. */
  function ResponseText(a: Answer): string
  {
    match a
    case Opening(topic) =>
      if topic == "barcode" then "Opening barcode scanner. Point your camera at a barcode to scan products."
      else if topic == "community" then "Opening community forum. Here you can connect with other users and share experiences."
      else if topic == "money" then "Opening money recognition. Point your camera at currency to identify bills and coins."
      else if topic == "face" then "Opening face recognition. This will help you identify familiar contacts."
      else if topic == "volunteer" then "Connecting you with volunteer assistance. A volunteer will be notified to help you."
      else "Opening settings. Here you can customize your app preferences."
    case Heard(c) =>
      HeardPrefix + c +
      "\". Try saying commands like \"open barcode scanner\", \"show community forum\", or \"get volunteer help\"."
  }

  /** The chain tests the openings in the table's order: the first opening
      with a keyword in the lower-cased command wins, and a command with
      none of the keywords is answered with the fallback. */
  lemma RespondIsFirstHit(command: string)
    ensures var m := Lower(command);
      Respond(command) ==
        match FirstHit(ResponseKeywords, m)
        case Some(topic) => Opening(topic)
        case None => Heard(command)
  {
    var m := Lower(command);
    var t0 := ResponseKeywords;
    var t1 := t0[1..];
    var t2 := t1[1..];
    var t3 := t2[1..];
    var t4 := t3[1..];
    var t5 := t4[1..];
    assert t0[0] == ("barcode", ["scan", "barcode"]);
    assert t1[0] == ("community", ["community", "forum"]);
    assert t2[0] == ("money", ["money", "currency"]);
    assert t3[0] == ("face", ["face", "person"]);
    assert t4[0] == ("volunteer", ["help", "volunteer"]);
    assert t5[0] == ("settings", ["settings", "preferences"]) && t5[1..] == [];
    AnyContainsPair(m, "scan", "barcode");
    AnyContainsPair(m, "community", "forum");
    AnyContainsPair(m, "money", "currency");
    AnyContainsPair(m, "face", "person");
    AnyContainsPair(m, "help", "volunteer");
    AnyContainsPair(m, "settings", "preferences");
    FirstHitStep(t0, m);
    FirstHitStep(t1, m);
    FirstHitStep(t2, m);
    FirstHitStep(t3, m);
    FirstHitStep(t4, m);
    FirstHitStep(t5, m);
  }

  /** An unrecognised command is repeated back to the user as spoken. */
  lemma FallbackQuotesCommand(command: string)
    requires Respond(command).Heard?
    ensures Respond(command) == Heard(command)
    ensures Contains(ResponseText(Respond(command)), command)
  {
    var r := ResponseText(Heard(command));
    var k := |HeardPrefix|;
    assert r[k..k + |command|] == command;
    assert OccursAt(r, command, k);
    ContainsIff(r, command);
  }

  /** "scan" and "barcode" win over every later keyword: "scan money"
      opens the barcode scanner. */
  lemma ScanWins(command: string)
    requires Contains(Lower(command), "scan")
    ensures Respond(command) == Opening("barcode")
  {
  }

  class Panel {
    var isListening: bool
    var transcript: string
    var response: string
    var isSpeaking: bool
    /** The utterances handed to the synthesizer, oldest first. */
    var spoken: seq<Utterance>
    /** A speech recognizer was created when the panel mounted. */
    const hasRecognizer: bool
    /** Speech synthesis exists in this browser. */
    const hasSynthesis: bool

    constructor (hasRecognizer: bool, hasSynthesis: bool)
      ensures this.hasRecognizer == hasRecognizer && this.hasSynthesis == hasSynthesis
      ensures !isListening && transcript == "" && response == "" && !isSpeaking && spoken == []
    {
      this.hasRecognizer := hasRecognizer;
      this.hasSynthesis := hasSynthesis;
      isListening := false;
      transcript := "";
      response := "";
      isSpeaking := false;
      spoken := [];
    }

    /** startListening: without a recognizer nothing happens. */
    method StartListening()
      modifies this`isListening, this`transcript
      ensures hasRecognizer ==> isListening && transcript == ""
      ensures !hasRecognizer ==> isListening == old(isListening) && transcript == old(transcript)
    {
      if hasRecognizer {
        isListening := true;
        transcript := "";
      }
    }

    method StopListening()
      modifies this`isListening
      ensures isListening == (if hasRecognizer then false else old(isListening))
    {
      if hasRecognizer {
        isListening := false;
      }
    }

    /** onresult: every result updates the transcript; only a final one is
        answered. */
    method OnResult(text: string, isFinal: bool)
      modifies this`transcript, this`response, this`isSpeaking, this`spoken
      ensures transcript == text
      ensures isFinal ==> response == ResponseText(Respond(text))
      ensures !isFinal ==> response == old(response) && isSpeaking == old(isSpeaking) && spoken == old(spoken)
      ensures isFinal && hasSynthesis ==> isSpeaking && spoken == old(spoken) + [Utterance(response, DefaultRate, None)]
      ensures isFinal && !hasSynthesis ==> isSpeaking == old(isSpeaking) && spoken == old(spoken)
    {
      transcript := text;
      if isFinal {
        ProcessVoiceCommand(text);
      }
    }

    /** onend and onerror both stop the listening indicator. */
    method OnEnd()
      modifies this`isListening
      ensures !isListening
    {
      isListening := false;
    }

    /** processVoiceCommand: the response shown is the one spoken. */
    method ProcessVoiceCommand(command: string)
      modifies this`response, this`isSpeaking, this`spoken
      ensures response == ResponseText(Respond(command))
      ensures hasSynthesis ==> isSpeaking && spoken == old(spoken) + [Utterance(response, DefaultRate, None)]
      ensures !hasSynthesis ==> isSpeaking == old(isSpeaking) && spoken == old(spoken)
    {
      response := ResponseText(Respond(command));
      SpeakResponse(response);
    }

    /** speakResponse: speaks at rate 0.8 with the default voice. */
    method SpeakResponse(text: string)
      modifies this`isSpeaking, this`spoken
      ensures hasSynthesis ==> isSpeaking && spoken == old(spoken) + [Utterance(text, DefaultRate, None)]
      ensures !hasSynthesis ==> isSpeaking == old(isSpeaking) && spoken == old(spoken)
    {
      if hasSynthesis {
        isSpeaking := true;
        spoken := spoken + [Utterance(text, DefaultRate, None)];
      }
    }

    /** The utterance's onend. */
    method OnSpeechEnd()
      modifies this`isSpeaking
      ensures !isSpeaking
    {
      isSpeaking := false;
    }

    method StopSpeaking()
      modifies this`isSpeaking
      ensures isSpeaking == (if hasSynthesis then false else old(isSpeaking))
    {
      if hasSynthesis {
        isSpeaking := false;
      }
    }
  }
}
