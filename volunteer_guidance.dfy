/** The volunteer guidance screen: a help request is created pending, a
    timer later attaches the first online volunteer, and ending the session
    completes the request until a second timer clears it. Each timer body
    is a step method; ids and timestamps are parameters. */
module VolunteerGuidance {
  import opened Optional
  import opened Seqs

  datatype Volunteer = Volunteer(
    id: string,
    name: string,
    specialties: seq<string>,
    rating: int,
    isOnline: bool,
    responseTime: string)

  datatype Status = Pending | Connected | Completed

  datatype HelpRequest = HelpRequest(
    id: string,
    kind: string,
    status: Status,
    volunteer: Option<Volunteer>,
    timestamp: string)

  /** What the screen says aloud. */
  datatype Announcement = ConnectedTo(name: string, specialties: seq<string>) | SessionCompleted

  /** The screen's volunteers; ratings in tenths. */
  const Volunteers: seq<Volunteer> := [
    Volunteer("1", "Emma Thompson", ["Navigation", "Shopping"], 49, true, "< 2 min"),
    Volunteer("2", "David Chen", ["Reading", "Technology"], 48, true, "< 3 min"),
    Volunteer("3", "Sarah Johnson", ["General Support", "Navigation"], 49, false, "< 5 min")
  ]

  /** `volunteers.find(v => v.isOnline)`. */
  function FirstOnline(vols: seq<Volunteer>): (r: Option<Volunteer>)
    ensures r.None? <==> forall i :: 0 <= i < |vols| ==> !vols[i].isOnline
    ensures r.Some? ==> exists k :: 0 <= k < |vols| && vols[k] == r.value && r.value.isOnline &&
                                    forall j :: 0 <= j < k ==> !vols[j].isOnline
  {
    match FindIndex(vols, (v: Volunteer) => v.isOnline)
    case None => None
    case Some(k) => Some(vols[k])
  }

  /** With the screen's list the connect step always finds Emma Thompson. */
  lemma SeededConnect()
    ensures FirstOnline(Volunteers) == Some(Volunteers[0])
  {
  }

  class Screen {
    var currentRequest: Option<HelpRequest>
    var helpType: string
    /** The announcements handed to the synthesizer, oldest first. */
    var announcements: seq<Announcement>
    const volunteers: seq<Volunteer>
    /** Speech synthesis exists in this browser. */
    const hasSynthesis: bool

    constructor (volunteers: seq<Volunteer>, hasSynthesis: bool)
      ensures this.volunteers == volunteers && this.hasSynthesis == hasSynthesis
      ensures currentRequest == None && helpType == "" && announcements == []
    {
      this.volunteers := volunteers;
      this.hasSynthesis := hasSynthesis;
      currentRequest := None;
      helpType := "";
      announcements := [];
    }

    /** requestHelp: the type is remembered and a pending request with no
        volunteer replaces the current one. */
    method RequestHelp(kind: string, id: string, timestamp: string)
      modifies this`helpType, this`currentRequest
      ensures helpType == kind
      ensures currentRequest == Some(HelpRequest(id, kind, Pending, None, timestamp))
    {
      helpType := kind;
      currentRequest := Some(HelpRequest(id, kind, Pending, None, timestamp));
    }

    /** The connect timer: with somebody online, whatever request is
        current (a completed one included) becomes connected to the first
        online volunteer, and the connection is announced even when no
        request is left; with nobody online nothing happens. */
    method ConnectStep()
      modifies this`currentRequest, this`announcements
      ensures FirstOnline(volunteers).None? ==>
        currentRequest == old(currentRequest) && announcements == old(announcements)
      ensures FirstOnline(volunteers).Some? ==>
        var v := FirstOnline(volunteers).value;
        && currentRequest == (match old(currentRequest)
                              case None => None
                              case Some(r) => Some(r.(status := Connected, volunteer := Some(v))))
        && announcements == old(announcements) + (if hasSynthesis then [ConnectedTo(v.name, v.specialties)] else [])
    {
      var available := FirstOnline(volunteers);
      if available.Some? {
        var v := available.value;
        match currentRequest {
          case None =>
          case Some(r) =>
            currentRequest := Some(r.(status := Connected, volunteer := Some(v)));
        }
        if hasSynthesis {
          announcements := announcements + [ConnectedTo(v.name, v.specialties)];
        }
      }
    }

    /** endSession: a current request is completed, its other fields kept;
        without one nothing happens. */
    method EndSession()
      modifies this`currentRequest, this`announcements
      ensures old(currentRequest).None? ==>
        currentRequest == None && announcements == old(announcements)
      ensures old(currentRequest).Some? ==>
        && currentRequest == Some(old(currentRequest).value.(status := Completed))
        && announcements == old(announcements) + (if hasSynthesis then [SessionCompleted] else [])
    {
      if currentRequest.Some? {
        currentRequest := Some(currentRequest.value.(status := Completed));
        if hasSynthesis {
          announcements := announcements + [SessionCompleted];
        }
      }
    }

    /** The reset timer endSession starts. */
    method ResetStep()
      modifies this`currentRequest, this`helpType
      ensures currentRequest == None && helpType == ""
    {
      currentRequest := None;
      helpType := "";
    }
  }
}
