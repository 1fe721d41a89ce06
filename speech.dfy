/** What the screens hand to the browser's speech synthesis: one utterance,
    its rate in tenths (0.8 is 8) and, when one was picked, the name of the
    voice. Speaking is modelled as appending the utterance to a log. */
module Speech {
  import opened Optional

  datatype Utterance = Utterance(text: string, rate: int, voice: Option<string>)

  /** The rate every announcement of the app uses, 0.8. */
  const DefaultRate: int := 8
}
