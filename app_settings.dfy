/** The settings screen: its initial preferences, the toggles and setters
    behind its controls, and the voice test, which speaks at the chosen
    rate with the first voice whose name suits the chosen gender. Rates
    are in tenths, as the slider moves in steps of 0.1. */
module AppSettings {
  import opened Optional
  import opened Text
  import opened Seqs
  import opened Speech

  datatype VoiceGender = Female | Male

  /** The font sizes the screen offers. */
  const FontSizes: seq<string> := ["small", "medium", "large", "extra-large"]

  /** The speech rate slider runs from 0.5 to 2. */
  const MinRate: int := 5
  const MaxRate: int := 20

  const TestText: string :=
    "This is a test of the voice settings. The speech rate is currently set to your preference."

  /** The voice test's name test: 'female' or 'samantha' for a female
      voice, 'male' or 'alex' for a male one, on the lower-cased name. */
  predicate Suits(gender: VoiceGender, name: string)
  {
    var n := Lower(name);
    match gender
    case Female => Contains(n, "female") || Contains(n, "samantha")
    case Male => Contains(n, "male") || Contains(n, "alex")
  }

  /** The voice the test picks: the first that suits the gender; none
      leaves the utterance's voice unset. */
  function PreferredVoice(gender: VoiceGender, voices: seq<string>): (r: Option<string>)
    ensures r.None? <==> forall i :: 0 <= i < |voices| ==> !Suits(gender, voices[i])
    ensures r.Some? ==> exists k :: 0 <= k < |voices| && voices[k] == r.value && Suits(gender, r.value) &&
                                    forall j :: 0 <= j < k ==> !Suits(gender, voices[j])
  {
    match FindIndex(voices, (v: string) => Suits(gender, v))
    case None => None
    case Some(k) => Some(voices[k])
  }

  /** "female" holds "male", so every voice that suits a female preference
      by its 'female' name also suits a male preference. */
  lemma MaleAcceptsFemaleNames(name: string)
    requires Contains(Lower(name), "female")
    ensures Suits(Male, name)
  {
    assert "female"[2..2 + |"male"|] == "male";
    assert OccursAt("female", "male", 2);
    ContainsIff("female", "male");
    ContainsTransitive(Lower(name), "female", "male");
  }

  /** Hence a male preference picks a listed-first "...Female..." voice. */
  lemma MalePicksListedFemaleVoice(voices: seq<string>)
    requires voices != [] && Contains(Lower(voices[0]), "female")
    ensures PreferredVoice(Male, voices) == Some(voices[0])
  {
    MaleAcceptsFemaleNames(voices[0]);
  }

  class Settings {
    var fontSize: string
    var highContrast: bool
    var hapticFeedback: bool
    var speechRate: int
    var voiceGender: VoiceGender
    /** The app-wide voice prompt flag the screen toggles. */
    var isVoiceEnabled: bool
    /** The utterances handed to the synthesizer, oldest first. */
    var spoken: seq<Utterance>
    /** Speech synthesis exists in this browser. */
    const hasSynthesis: bool

    constructor (isVoiceEnabled: bool, hasSynthesis: bool)
      ensures fontSize == "large" && !highContrast && hapticFeedback && speechRate == DefaultRate
      ensures voiceGender == Female && this.isVoiceEnabled == isVoiceEnabled && spoken == []
      ensures this.hasSynthesis == hasSynthesis
    {
      fontSize := "large";
      highContrast := false;
      hapticFeedback := true;
      speechRate := DefaultRate;
      voiceGender := Female;
      this.isVoiceEnabled := isVoiceEnabled;
      this.hasSynthesis := hasSynthesis;
      spoken := [];
    }

    method ToggleVoice()
      modifies this`isVoiceEnabled
      ensures isVoiceEnabled == !old(isVoiceEnabled)
    {
      isVoiceEnabled := !isVoiceEnabled;
    }

    method ToggleHighContrast()
      modifies this`highContrast
      ensures highContrast == !old(highContrast)
    {
      highContrast := !highContrast;
    }

    method ToggleHapticFeedback()
      modifies this`hapticFeedback
      ensures hapticFeedback == !old(hapticFeedback)
    {
      hapticFeedback := !hapticFeedback;
    }

    method SetFontSize(size: string)
      requires size in FontSizes
      modifies this`fontSize
      ensures fontSize == size
    {
      fontSize := size;
    }

    method SetSpeechRate(rate: int)
      requires MinRate <= rate <= MaxRate
      modifies this`speechRate
      ensures speechRate == rate
    {
      speechRate := rate;
    }

    method SetVoiceGender(gender: VoiceGender)
      modifies this`voiceGender
      ensures voiceGender == gender
    {
      voiceGender := gender;
    }

    /** handleVoiceTest: with synthesis, the test sentence at the chosen
        rate with the preferred voice among those listed. */
    method HandleVoiceTest(voices: seq<string>)
      modifies this`spoken
      ensures hasSynthesis ==>
        spoken == old(spoken) + [Utterance(TestText, speechRate, PreferredVoice(voiceGender, voices))]
      ensures !hasSynthesis ==> spoken == old(spoken)
    {
      if hasSynthesis {
        spoken := spoken + [Utterance(TestText, speechRate, PreferredVoice(voiceGender, voices))];
      }
    }
  }
}
