/** The app-wide voice provider: the command interpreter that turns a spoken
    command into a navigation target, a module action or an information
    message, and the listening and speaking flags the provider keeps. The
    recognizer and the synthesizer themselves are outside the model: their
    presence is a constant and their callbacks are methods. */
module VoiceContext {
  import opened Optional
  import opened Text
  import opened Seqs
  import opened Speech

  // ---------------------------------------------------------------------
  // Command interpretation

  /** The command asks to go somewhere: "go to", "open" or "show". */
  predicate NavigationVerb(m: string)
  {
    Contains(m, "go to") || Contains(m, "open") || Contains(m, "show")
  }

  /** The inner chain of navigation tests, over the lower-cased command;
      None when no module keyword is present. */
  function NavigationChain(m: string): Option<string>
  {
    if Contains(m, "home") then Some("home")
    else if Contains(m, "barcode") || Contains(m, "scan") then Some("barcode")
    else if Contains(m, "community") || Contains(m, "forum") then Some("community")
    else if Contains(m, "face") || Contains(m, "recognition") then Some("face")
    else if Contains(m, "money") || Contains(m, "currency") then Some("money")
    else if Contains(m, "volunteer") || Contains(m, "help") then Some("volunteer")
    else if Contains(m, "settings") || Contains(m, "preferences") then Some("settings")
    else None
  }

  /** The module switch, over the lower-cased command; None falls through
      to the information message. */
  function ModuleCommand(m: string, currentModule: string): Option<string>
  {
    if currentModule == "barcode" then
      if Contains(m, "start") || Contains(m, "scan") then Some("start_scan")
      else if Contains(m, "stop") then Some("stop_scan")
      else None
    else if currentModule == "face" then
      if Contains(m, "recognize") || Contains(m, "identify") then Some("start_recognition")
      else None
    else if currentModule == "money" then
      if Contains(m, "scan") || Contains(m, "identify") then Some("scan_currency")
      else if Contains(m, "total") then Some("speak_total")
      else if Contains(m, "clear") then Some("clear_total")
      else None
    else if currentModule == "volunteer" then
      if Contains(m, "navigation") then Some("request_navigation")
      else if Contains(m, "shopping") then Some("request_shopping")
      else if Contains(m, "reading") then Some("request_reading")
      else if Contains(m, "general") then Some("request_general")
      else None
    else None
  }

  /** What a command asks for; Encode gives the string the provider returns. */
  datatype Outcome = Navigate(target: string) | Act(action: string) | Inform(command: string)

  /** The fallback message quotes the command as it was spoken. */
  function Encode(o: Outcome): string
  {
    match o
    case Navigate(t) => "navigate:" + t
    case Act(a) => "action:" + a
    case Inform(c) =>
      "info:Command \"" + c +
      "\" recognized. Available commands include: go to [module], start scanning, get help, or say \"what can I do\" for more options."
  }

  /** The decisions of processVoiceCommand: navigation first, then the
      module's actions, then the information message. */
  function Interpret(command: string, currentModule: string): Outcome
  {
    var m := Lower(command);
    if NavigationVerb(m) && NavigationChain(m).Some? then Navigate(NavigationChain(m).value)
    else if ModuleCommand(m, currentModule).Some? then Act(ModuleCommand(m, currentModule).value)
    else Inform(command)
  }

  /** processVoiceCommand: every answer is tagged "navigate:", "action:" or
      "info:". */
  function ProcessVoiceCommand(command: string, currentModule: string): (r: string)
    ensures "navigate:" <= r || "action:" <= r || "info:" <= r
    ensures Interpret(command, currentModule).Inform? <==> "info:" <= r
  {
    var o := Interpret(command, currentModule);
    var r := Encode(o);
    assert !o.Inform? ==> r[0] != 'i';
    r
  }

  /** Commands that agree once lower-cased get the same decision, except
      that the information message quotes each command as spoken. */
  lemma OnlyLowerCaseMatters(c1: string, c2: string, currentModule: string)
    requires Lower(c1) == Lower(c2)
    ensures Interpret(c1, currentModule).Inform? <==> Interpret(c2, currentModule).Inform?
    ensures !Interpret(c1, currentModule).Inform? ==>
            ProcessVoiceCommand(c1, currentModule) == ProcessVoiceCommand(c2, currentModule)
    ensures Interpret(c1, currentModule).Inform? ==> Interpret(c1, currentModule) == Inform(c1)
  {
  }

  /** "go to home", "open home", "show home" go home from every module. */
  lemma HomeFromAnywhere(command: string, currentModule: string)
    requires NavigationVerb(Lower(command)) && Contains(Lower(command), "home")
    ensures Interpret(command, currentModule) == Navigate("home")
  {
  }

  /** Navigation wins over the module's actions: a navigation verb with a
      module keyword navigates whatever the current module, and one without
      any module keyword falls through to the module switch. */
  lemma NavigationPrecedence(command: string, currentModule: string)
    ensures var m := Lower(command);
      NavigationVerb(m) && NavigationChain(m).Some? ==>
        Interpret(command, currentModule) == Navigate(NavigationChain(m).value)
    ensures var m := Lower(command);
      NavigationChain(m).None? && ModuleCommand(m, currentModule).Some? ==>
        Interpret(command, currentModule) == Act(ModuleCommand(m, currentModule).value)
  {
  }

  /** In the money module: "scan"/"identify" scans, else "total" speaks the
      total, else "clear" clears it. */
  lemma MoneyActions(m: string)
    ensures Contains(m, "scan") || Contains(m, "identify") ==> ModuleCommand(m, "money") == Some("scan_currency")
    ensures !(Contains(m, "scan") || Contains(m, "identify")) && Contains(m, "total") ==>
      ModuleCommand(m, "money") == Some("speak_total")
    ensures !(Contains(m, "scan") || Contains(m, "identify") || Contains(m, "total")) && Contains(m, "clear") ==>
      ModuleCommand(m, "money") == Some("clear_total")
    ensures !(Contains(m, "scan") || Contains(m, "identify") || Contains(m, "total") || Contains(m, "clear")) ==>
      ModuleCommand(m, "money") == None
  {
  }

  /** In the barcode module "start"/"scan" is tested before "stop". */
  lemma BarcodeActions(m: string)
    ensures Contains(m, "start") || Contains(m, "scan") ==> ModuleCommand(m, "barcode") == Some("start_scan")
    ensures !(Contains(m, "start") || Contains(m, "scan")) && Contains(m, "stop") ==>
      ModuleCommand(m, "barcode") == Some("stop_scan")
  {
  }

  // ---------------------------------------------------------------------
  // The navigation order as a table

  /** The navigation targets in the order they are tested, each with its
      keywords. */
  const NavigationKeywords: seq<(string, seq<string>)> := [
    ("home", ["home"]),
    ("barcode", ["barcode", "scan"]),
    ("community", ["community", "forum"]),
    ("face", ["face", "recognition"]),
    ("money", ["money", "currency"]),
    ("volunteer", ["volunteer", "help"]),
    ("settings", ["settings", "preferences"])
  ]

  /** The if-chain tests the targets in the table's order: the first target
      with a keyword in the command wins. */
  lemma NavigationChainIsFirstHit(m: string)
    ensures NavigationChain(m) == FirstHit(NavigationKeywords, m)
  {
    var t0 := NavigationKeywords;
    var t1 := t0[1..];
    var t2 := t1[1..];
    var t3 := t2[1..];
    var t4 := t3[1..];
    var t5 := t4[1..];
    var t6 := t5[1..];
    assert t0[0] == ("home", ["home"]);
    assert t1[0] == ("barcode", ["barcode", "scan"]);
    assert t2[0] == ("community", ["community", "forum"]);
    assert t3[0] == ("face", ["face", "recognition"]);
    assert t4[0] == ("money", ["money", "currency"]);
    assert t5[0] == ("volunteer", ["volunteer", "help"]);
    assert t6[0] == ("settings", ["settings", "preferences"]) && t6[1..] == [];
    assert AnyContains(m, ["home"]) <==> Contains(m, "home") by {
      assert ["home"][0] == "home" && ["home"][1..] == [];
    }
    AnyContainsPair(m, "barcode", "scan");
    AnyContainsPair(m, "community", "forum");
    AnyContainsPair(m, "face", "recognition");
    AnyContainsPair(m, "money", "currency");
    AnyContainsPair(m, "volunteer", "help");
    AnyContainsPair(m, "settings", "preferences");
    FirstHitStep(t0, m);
    FirstHitStep(t1, m);
    FirstHitStep(t2, m);
    FirstHitStep(t3, m);
    FirstHitStep(t4, m);
    FirstHitStep(t5, m);
    FirstHitStep(t6, m);
  }

  // ---------------------------------------------------------------------
  // The provider's state

  class Provider {
    var isListening: bool
    var isSpeaking: bool
    var transcript: string
    var isVoiceEnabled: bool
    var lastSpeechError: Option<string>
    /** The utterances handed to the synthesizer, oldest first. */
    var spoken: seq<Utterance>
    /** A speech recognizer exists in this browser. */
    const hasRecognizer: bool
    /** Speech synthesis exists in this browser. */
    const hasSynthesis: bool

    constructor (hasRecognizer: bool, hasSynthesis: bool)
      ensures this.hasRecognizer == hasRecognizer && this.hasSynthesis == hasSynthesis
      ensures !isListening && !isSpeaking && transcript == "" && isVoiceEnabled
      ensures lastSpeechError == None && spoken == []
    {
      this.hasRecognizer := hasRecognizer;
      this.hasSynthesis := hasSynthesis;
      isListening := false;
      isSpeaking := false;
      transcript := "";
      isVoiceEnabled := true;
      lastSpeechError := None;
      spoken := [];
    }

    /** startListening: needs a recognizer and voice enabled. */
    method StartListening()
      modifies this
      ensures hasRecognizer && old(isVoiceEnabled) ==>
        lastSpeechError == None && isListening && transcript == "" &&
        isSpeaking == old(isSpeaking) && isVoiceEnabled == old(isVoiceEnabled) && spoken == old(spoken)
      ensures !(hasRecognizer && old(isVoiceEnabled)) ==> unchanged(this)
    {
      if hasRecognizer && isVoiceEnabled {
        lastSpeechError := None;
        isListening := true;
        transcript := "";
      }
    }

    method StopListening()
      modifies this`isListening
      ensures isListening == (if hasRecognizer then false else old(isListening))
    {
      if hasRecognizer {
        isListening := false;
      }
    }

    /** The recognizer's onresult: the transcript of the current result. */
    method OnResult(text: string)
      modifies this`transcript
      ensures transcript == text
    {
      transcript := text;
    }

    method OnEnd()
      modifies this`isListening
      ensures !isListening
    {
      isListening := false;
    }

    method OnError(error: string)
      modifies this`isListening, this`lastSpeechError
      ensures !isListening && lastSpeechError == Some(error)
    {
      lastSpeechError := Some(error);
      isListening := false;
    }

    method SetVoiceEnabled(enabled: bool)
      modifies this`isVoiceEnabled
      ensures isVoiceEnabled == enabled
    {
      isVoiceEnabled := enabled;
    }

    /** speak: with synthesis and voice enabled, the text is spoken at the
        given rate, or 0.8 when none (or 0) is given, with the first voice
        whose name contains the requested one, when the voices are loaded. */
    method Speak(text: string, rate: Option<int>, voice: Option<string>, voices: seq<string>)
      modifies this`isSpeaking, this`spoken
      ensures hasSynthesis && isVoiceEnabled ==>
        isSpeaking && spoken == old(spoken) + [Utterance(text, SpeechRate(rate), PreferredVoice(voice, voices))]
      ensures !(hasSynthesis && isVoiceEnabled) ==>
        isSpeaking == old(isSpeaking) && spoken == old(spoken)
    {
      if hasSynthesis && isVoiceEnabled {
        isSpeaking := true;
        spoken := spoken + [Utterance(text, SpeechRate(rate), PreferredVoice(voice, voices))];
      }
    }

    /** The utterance's onend and onerror. */
    method OnSpeechDone()
      modifies this`isSpeaking
      ensures !isSpeaking
    {
      isSpeaking := false;
    }

    method StopSpeaking()
      modifies this`isSpeaking
      ensures isSpeaking == (if hasSynthesis then false else old(isSpeaking))
    {
      if hasSynthesis {
        isSpeaking := false;
      }
    }
  }

  /** `options.rate || 0.8`: a missing or zero rate gives 0.8. */
  function SpeechRate(rate: Option<int>): (r: int)
    ensures r != 0
    ensures rate.Some? && rate.value != 0 ==> r == rate.value
  {
    if rate.Some? && rate.value != 0 then rate.value else DefaultRate
  }

  /** The voice speak picks: the first voice whose lower-cased name contains
      the lower-cased request; none when nothing was requested (an empty
      name is falsy and requests nothing), nothing matches, or the voices
      are not loaded yet. */
  function PreferredVoice(voice: Option<string>, voices: seq<string>): (r: Option<string>)
    ensures voice.None? || voice == Some("") ==> r.None?
    ensures r.Some? ==> voice.Some? && voice.value != "" &&
                        exists i :: 0 <= i < |voices| && voices[i] == r.value &&
                                    Contains(Lower(voices[i]), Lower(voice.value)) &&
                                    forall j :: 0 <= j < i ==> !Contains(Lower(voices[j]), Lower(voice.value))
    ensures r.None? && voice.Some? && voice.value != "" ==>
              forall j :: 0 <= j < |voices| ==> !Contains(Lower(voices[j]), Lower(voice.value))
  {
    match voice
    case None => None
    case Some(name) =>
      if name == "" then None
      else
        match FindIndex(voices, (v: string) => Contains(Lower(v), Lower(name)))
        case None => None
        case Some(i) => Some(voices[i])
  }
}
