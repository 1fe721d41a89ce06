/** The module announcer: when the active module or the enable flag
    changes, the module's announcement is spoken at rate 0.8 (after a
    short delay, which the model folds into the step). */
module VoicePrompts {
  import opened Optional
  import opened Speech

  /** The fixed announcement of each known module id. */
  function Announcement(activeModule: string): Option<string>
  {
    match activeModule
    case "home" => Some("Home screen. Choose a module to get started.")
    case "barcode" => Some("Barcode scanner module. Scan products to get audio descriptions.")
    case "community" => Some("Community forum. Connect with other users and share experiences.")
    case "voice" => Some("Voice interaction module. Use voice commands to control the app.")
    case "face" => Some("Face recognition module. Identify familiar contacts.")
    case "money" => Some("Money recognition module. Identify currency and manage transactions.")
    case "volunteer" => Some("Volunteer guidance. Get real-time assistance from trained volunteers.")
    case "settings" => Some("Settings. Customize your app experience.")
    case _ => None
  }

  const KnownModules: seq<string> :=
    ["home", "barcode", "community", "voice", "face", "money", "volunteer", "settings"]

  /** Exactly the eight known ids are announced. */
  lemma AnnouncedModules(activeModule: string)
    ensures Announcement(activeModule).Some? <==> activeModule in KnownModules
  {
  }

  /** announceModuleChange: nothing when prompts are off, when synthesis
      is missing, or for an unknown module; otherwise the announcement at
      rate 0.8. */
  function AnnounceModuleChange(isEnabled: bool, hasSynthesis: bool, activeModule: string): (u: Option<Utterance>)
    ensures u.Some? <==> isEnabled && hasSynthesis && activeModule in KnownModules
    ensures u.Some? ==> u.value.rate == DefaultRate && u.value.voice == None &&
                        Some(u.value.text) == Announcement(activeModule)
  {
    AnnouncedModules(activeModule);
    if !isEnabled || !hasSynthesis then None
    else match Announcement(activeModule)
      case None => None
      case Some(text) => Some(Utterance(text, DefaultRate, None))
  }

  /** The effect's dependency tracking across renders. */
  class Prompts {
    /** The dependencies of the last run; None before the first render. */
    var lastDeps: Option<(string, bool)>
    /** The utterances handed to the synthesizer, oldest first. */
    var spoken: seq<Utterance>
    const hasSynthesis: bool

    constructor (hasSynthesis: bool)
      ensures this.hasSynthesis == hasSynthesis && lastDeps == None && spoken == []
    {
      this.hasSynthesis := hasSynthesis;
      lastDeps := None;
      spoken := [];
    }

    /** A render: the effect runs on the first render and whenever the
        active module or the enable flag differs from the last run. */
    method Render(activeModule: string, isEnabled: bool)
      modifies this
      ensures lastDeps == Some((activeModule, isEnabled))
      ensures old(lastDeps) == Some((activeModule, isEnabled)) ==> spoken == old(spoken)
      ensures old(lastDeps) != Some((activeModule, isEnabled)) ==>
        spoken == old(spoken) + match AnnounceModuleChange(isEnabled, hasSynthesis, activeModule)
                                 case None => []
                                 case Some(u) => [u]
    {
      if lastDeps != Some((activeModule, isEnabled)) {
        match AnnounceModuleChange(isEnabled, hasSynthesis, activeModule) {
          case None =>
          case Some(u) => spoken := spoken + [u];
        }
      }
      lastDeps := Some((activeModule, isEnabled));
    }
  }
}
