/** The volunteer matching service: the online and specialty filters, the
    fallback to general-support volunteers, the choice of the best-rated
    volunteer, the request life cycle, the weighted rating update, the
    handler lists and the choice of a reply category.

    Ratings are kept in integer tenths (4.9 stars is 49). Ids, timestamps
    and random draws are parameters; the delayed steps of the service
    (`setTimeout`, `setInterval`) are methods of their own. */
module VolunteerService {
  import opened Optional
  import opened Text
  import opened Seqs

  datatype HelpType = Navigation | Shopping | Reading | General

  /** The request type as the string the service filters specialties by. */
  function TypeName(t: HelpType): string
  {
    match t
    case Navigation => "navigation"
    case Shopping => "shopping"
    case Reading => "reading"
    case General => "general"
  }

  datatype Status = Pending | Connected | Completed | Cancelled

  datatype Priority = Low | Medium | High

  datatype Volunteer = Volunteer(
    id: string,
    name: string,
    specialties: seq<string>,
    rating: int,            // tenths of a star
    isOnline: bool,
    responseTime: string)

  datatype HelpRequest = HelpRequest(
    id: string,
    kind: HelpType,
    status: Status,
    volunteer: Option<Volunteer>,
    timestamp: string,
    userId: string,
    description: Option<string>,
    priority: Priority)

  /** A message or status handler, identified by reference. */
  type HandlerId = nat

  const UserId: string := "user-1"
  const GeneralSupport: string := "General Support"

  /** The volunteers the service starts with. */
  const SeedVolunteers: seq<Volunteer> := [
    Volunteer("vol-1", "Emma Thompson", ["Navigation", "Shopping", "General Support"], 49, true, "< 2 min"),
    Volunteer("vol-2", "David Chen", ["Reading", "Technology", "Shopping"], 48, true, "< 3 min"),
    Volunteer("vol-3", "Sarah Johnson", ["General Support", "Navigation", "Reading"], 49, true, "< 5 min"),
    Volunteer("vol-4", "Michael Rodriguez", ["Shopping", "Technology", "General Support"], 47, false, "< 10 min"),
    Volunteer("vol-5", "Lisa Wang", ["Reading", "Navigation", "Technology"], 48, true, "< 4 min"),
    Volunteer("vol-6", "James Wilson", ["Navigation", "General Support", "Shopping"], 46, true, "< 6 min")
  ]

  // ---------------------------------------------------------------------
  // Filters

  /** getAvailableVolunteers: the online volunteers, in list order. */
  function Online(vols: seq<Volunteer>): (r: seq<Volunteer>)
    ensures forall i :: 0 <= i < |r| ==> r[i] in vols && r[i].isOnline
    ensures forall i :: 0 <= i < |vols| && vols[i].isOnline ==> vols[i] in r
    ensures IsSubsequence(r, vols)
  {
    FilterSubsequence(vols, (v: Volunteer) => v.isOnline);
    Filter(vols, (v: Volunteer) => v.isOnline)
  }

  /** Some specialty of `v`, lower-cased, contains the lower-cased query. */
  predicate HasSpecialtyLike(v: Volunteer, query: string)
  {
    exists i :: 0 <= i < |v.specialties| && Contains(Lower(v.specialties[i]), Lower(query))
  }

  /** getVolunteersBySpecialty: online volunteers with a specialty whose
      lower-case form contains the lower-cased query, in list order. */
  function BySpecialty(vols: seq<Volunteer>, query: string): (r: seq<Volunteer>)
    ensures forall i :: 0 <= i < |r| ==> r[i] in vols && r[i].isOnline && HasSpecialtyLike(r[i], query)
    ensures forall i :: 0 <= i < |vols| && vols[i].isOnline && HasSpecialtyLike(vols[i], query) ==> vols[i] in r
    ensures IsSubsequence(r, vols)
  {
    FilterSubsequence(vols, (v: Volunteer) => v.isOnline && HasSpecialtyLike(v, query));
    Filter(vols, (v: Volunteer) => v.isOnline && HasSpecialtyLike(v, query))
  }

  /** The fallback: online volunteers holding exactly "General Support". */
  function GeneralSupporters(vols: seq<Volunteer>): (r: seq<Volunteer>)
    ensures forall i :: 0 <= i < |r| ==> r[i] in vols && r[i].isOnline && GeneralSupport in r[i].specialties
    ensures forall i :: 0 <= i < |vols| && vols[i].isOnline && GeneralSupport in vols[i].specialties ==> vols[i] in r
    ensures IsSubsequence(r, vols)
  {
    FilterSubsequence(vols, (v: Volunteer) => v.isOnline && GeneralSupport in v.specialties);
    Filter(vols, (v: Volunteer) => v.isOnline && GeneralSupport in v.specialties)
  }

  /** The volunteers a request of type `t` may be assigned: the specialists,
      or the general-support volunteers when there is no specialist. */
  function Candidates(vols: seq<Volunteer>, t: HelpType): (r: seq<Volunteer>)
    ensures forall i :: 0 <= i < |r| ==> r[i] in vols && r[i].isOnline
    ensures IsSubsequence(r, vols)
    ensures BySpecialty(vols, TypeName(t)) != [] ==> r == BySpecialty(vols, TypeName(t))
    ensures BySpecialty(vols, TypeName(t)) == [] ==> r == GeneralSupporters(vols)
  {
    var specialists := BySpecialty(vols, TypeName(t));
    if specialists == [] then GeneralSupporters(vols) else specialists
  }

  /** No candidate at all exactly when no online volunteer is a specialist
      and none holds "General Support". */
  lemma CandidatesEmpty(vols: seq<Volunteer>, t: HelpType)
    ensures Candidates(vols, t) == [] <==>
      forall i :: 0 <= i < |vols| && vols[i].isOnline ==>
        !HasSpecialtyLike(vols[i], TypeName(t)) && GeneralSupport !in vols[i].specialties
  {
    var c := Candidates(vols, t);
    if c == [] {
      forall i | 0 <= i < |vols| && vols[i].isOnline
        ensures !HasSpecialtyLike(vols[i], TypeName(t)) && GeneralSupport !in vols[i].specialties
      {
        assert vols[i] !in BySpecialty(vols, TypeName(t));
        assert vols[i] !in GeneralSupporters(vols);
      }
    } else {
      assert c[0] in vols;
    }
  }

  // ---------------------------------------------------------------------
  // Choosing the volunteer

  /** The digits of the response time read as a number; None is NaN. */
  function Minutes(v: Volunteer): Option<nat>
  {
    ParseDigits(v.responseTime)
  }

  /** The sort comparator says `a` goes before `b`: a higher rating, or an
      equal rating and a shorter response time. A NaN response time compares
      equal to everything. */
  predicate Better(a: Volunteer, b: Volunteer)
  {
    a.rating > b.rating ||
    (a.rating == b.rating && Minutes(a).Some? && Minutes(b).Some? && Minutes(a).value < Minutes(b).value)
  }

  predicate AllTimed(vols: seq<Volunteer>)
  {
    forall i :: 0 <= i < |vols| ==> Minutes(vols[i]).Some?
  }

  /** `vols[k]` is what the stable sort puts first: no volunteer goes before
      it, and, when every response time is a number, it goes before every
      volunteer listed ahead of it. */
  predicate ChosenAt(vols: seq<Volunteer>, k: nat)
  {
    k < |vols| &&
    (forall j :: 0 <= j < |vols| ==> !Better(vols[j], vols[k])) &&
    (AllTimed(vols) ==> forall j :: 0 <= j < k ==> Better(vols[k], vols[j]))
  }

  lemma BetterTransitive(a: Volunteer, b: Volunteer, c: Volunteer)
    requires Better(a, b) && Better(b, c)
    ensures Better(a, c)
  {
  }

  /** A volunteer that beats the current best is not beaten by anyone the
      current best was not beaten by. */
  lemma NotBeatenStep(x: Volunteer, best: Volunteer, next: Volunteer)
    requires !Better(x, best) && Better(next, best)
    ensures !Better(x, next)
  {
  }

  /** With numeric response times, a volunteer that beats the current best
      beats everyone that did not beat it. */
  lemma BeatsStep(x: Volunteer, best: Volunteer, next: Volunteer)
    requires Minutes(x).Some? && Minutes(best).Some? && Minutes(next).Some?
    requires !Better(x, best) && Better(next, best)
    ensures Better(next, x)
  {
  }

  /** `availableVolunteers.sort(...)[0]`: one pass that keeps the first
      volunteer nobody goes before. */
  method SelectVolunteer(vols: seq<Volunteer>) returns (k: nat)
    requires |vols| > 0
    ensures ChosenAt(vols, k)
    ensures forall j :: 0 <= j < |vols| ==> vols[j].rating <= vols[k].rating
    ensures forall j :: 0 <= j < |vols| && vols[j].rating == vols[k].rating && Minutes(vols[j]).Some? &&
                        Minutes(vols[k]).Some?
                        ==> Minutes(vols[k]).value <= Minutes(vols[j]).value
  {
    k := 0;
    var i := 1;
    while i < |vols|
      invariant 1 <= i <= |vols| && k < i
      invariant forall j :: 0 <= j < i ==> !Better(vols[j], vols[k])
      invariant AllTimed(vols) ==> forall j :: 0 <= j < k ==> Better(vols[k], vols[j])
    {
      if Better(vols[i], vols[k]) {
        forall j | 0 <= j < i ensures !Better(vols[j], vols[i]) {
          NotBeatenStep(vols[j], vols[k], vols[i]);
        }
        if AllTimed(vols) {
          forall j | 0 <= j < i ensures Better(vols[i], vols[j]) {
            if j < k {
              BetterTransitive(vols[i], vols[k], vols[j]);
            } else {
              BeatsStep(vols[j], vols[k], vols[i]);
            }
          }
        }
        k := i;
      }
      i := i + 1;
    }
  }

  // ---------------------------------------------------------------------
  // Ratings

  /** `Math.round(((r * 10) + stars) / 11 * 10) / 10` in tenths: the new
      rating weighs the old one ten times and the new stars once. */
  function NewRating(tenths: int, stars: int): int
  {
    (20 * (tenths + stars) + 11) / 22
  }

  /** The new rating is `10 * (tenths + stars) / 11` rounded to the nearest
      tenth, halves upwards, as Math.round does. */
  lemma NewRatingRounds(tenths: int, stars: int)
    ensures 22 * NewRating(tenths, stars) - 11 <= 20 * (tenths + stars) < 22 * NewRating(tenths, stars) + 11
  {
  }

  /** The new rating lies between the old rating and the new stars, so
      ratings stay within one to five stars when every rating does. */
  lemma NewRatingBetween(tenths: int, stars: int)
    ensures tenths <= 10 * stars ==> tenths <= NewRating(tenths, stars) <= 10 * stars
    ensures 10 * stars <= tenths ==> 10 * stars <= NewRating(tenths, stars) <= tenths
  {
  }

  /** A rating equal to the stars given is kept. */
  lemma NewRatingFixed(stars: int)
    ensures NewRating(10 * stars, stars) == 10 * stars
  {
    NewRatingBetween(10 * stars, stars);
  }

  // ---------------------------------------------------------------------
  // Replies

  datatype ReplyCategory =
    | HelpReply | LocationReply | ReadReply | FindReply | ThanksReply
    | ContextReply(kind: HelpType)

  /** The keyword tests of generateVolunteerResponse, first match wins. */
  function ReplyCategoryFor(message: string, t: HelpType): (c: ReplyCategory)
    ensures var m := Lower(message);
      (Contains(m, "help") || Contains(m, "need")) <==> c == HelpReply
    ensures c.ContextReply? ==> c.kind == t
  {
    var m := Lower(message);
    if Contains(m, "help") || Contains(m, "need") then HelpReply
    else if Contains(m, "where") || Contains(m, "location") then LocationReply
    else if Contains(m, "read") || Contains(m, "text") then ReadReply
    else if Contains(m, "find") || Contains(m, "looking for") then FindReply
    else if Contains(m, "thank") || Contains(m, "thanks") then ThanksReply
    else ContextReply(t)
  }

  /** The keyword tests of generateVolunteerResponse in their order, each
      tagged with the pool it selects. */
  const ReplyKeywords: seq<(string, seq<string>)> := [
    ("help", ["help", "need"]),
    ("location", ["where", "location"]),
    ("read", ["read", "text"]),
    ("find", ["find", "looking for"]),
    ("thanks", ["thank", "thanks"])
  ]

  /** The pool a tag of `ReplyKeywords` names; no tag is the request
      type's own pool. */
  function CategoryOfTag(tag: Option<string>, t: HelpType): ReplyCategory
  {
    match tag
    case None => ContextReply(t)
    case Some(name) =>
      if name == "help" then HelpReply
      else if name == "location" then LocationReply
      else if name == "read" then ReadReply
      else if name == "find" then FindReply
      else ThanksReply
  }

  /** The if-chain tests the pools in the table's order: the first pool
      with a keyword in the lower-cased message is the one replied from. */
  lemma ReplyChainIsFirstHit(message: string, t: HelpType)
    ensures ReplyCategoryFor(message, t) == CategoryOfTag(FirstHit(ReplyKeywords, Lower(message)), t)
  {
    var m := Lower(message);
    var t0 := ReplyKeywords;
    var t1 := t0[1..];
    var t2 := t1[1..];
    var t3 := t2[1..];
    var t4 := t3[1..];
    assert t0[0] == ("help", ["help", "need"]);
    assert t1[0] == ("location", ["where", "location"]);
    assert t2[0] == ("read", ["read", "text"]);
    assert t3[0] == ("find", ["find", "looking for"]);
    assert t4[0] == ("thanks", ["thank", "thanks"]) && t4[1..] == [];
    AnyContainsPair(m, "help", "need");
    AnyContainsPair(m, "where", "location");
    AnyContainsPair(m, "read", "text");
    AnyContainsPair(m, "find", "looking for");
    AnyContainsPair(m, "thank", "thanks");
    FirstHitStep(t0, m);
    FirstHitStep(t1, m);
    FirstHitStep(t2, m);
    FirstHitStep(t3, m);
    FirstHitStep(t4, m);
  }

  /** The pool of the request type is used exactly when no keyword matches. */
  lemma ReplyFallsBackToType(message: string, t: HelpType)
    ensures var m := Lower(message);
      ReplyCategoryFor(message, t) == ContextReply(t) <==>
        !(Contains(m, "help") || Contains(m, "need") || Contains(m, "where") || Contains(m, "location") ||
          Contains(m, "read") || Contains(m, "text") || Contains(m, "find") || Contains(m, "looking for") ||
          Contains(m, "thank"))
  {
    var m := Lower(message);
    if Contains(m, "thanks") {
      ContainsTransitive(m, "thanks", "thank");
    }
  }

  /** A reply the volunteer sends: the sender and the pool it is drawn from. */
  datatype Reply = Reply(sender: Volunteer, category: ReplyCategory)

  // ---------------------------------------------------------------------
  // The service object

  class Service {
    var isConnected: bool
    var currentRequest: Option<HelpRequest>
    var messageHandlers: seq<HandlerId>
    var statusHandlers: seq<HandlerId>
    var volunteers: seq<Volunteer>

    /** Volunteers are only ever updated in place, never added or removed. */
    ghost predicate Valid()
      reads this
    {
      |volunteers| == |SeedVolunteers| &&
      forall i :: 0 <= i < |volunteers| ==> volunteers[i].id == SeedVolunteers[i].id
    }

    constructor ()
      ensures Valid()
      ensures !isConnected && currentRequest == None
      ensures messageHandlers == [] && statusHandlers == []
      ensures volunteers == SeedVolunteers
    {
      isConnected := false;
      currentRequest := None;
      messageHandlers := [];
      statusHandlers := [];
      volunteers := SeedVolunteers;
    }

    /** connect, once its delay has elapsed; a second call does nothing. */
    method Connect()
      modifies this`isConnected
      ensures isConnected
    {
      if isConnected {
        return;
      }
      isConnected := true;
    }

    method Disconnect()
      modifies this`isConnected, this`currentRequest
      ensures !isConnected && currentRequest == None
    {
      isConnected := false;
      currentRequest := None;
    }

    function AvailableVolunteers(): (r: seq<Volunteer>)
      reads this
      ensures forall i :: 0 <= i < |r| ==> r[i] in volunteers && r[i].isOnline
      ensures forall i :: 0 <= i < |volunteers| && volunteers[i].isOnline ==> volunteers[i] in r
      ensures IsSubsequence(r, volunteers)
    {
      Online(volunteers)
    }

    function VolunteersBySpecialty(specialty: string): (r: seq<Volunteer>)
      reads this
      ensures forall i :: 0 <= i < |r| ==> r[i] in volunteers && r[i].isOnline && HasSpecialtyLike(r[i], specialty)
      ensures forall i :: 0 <= i < |volunteers| && volunteers[i].isOnline &&
                          HasSpecialtyLike(volunteers[i], specialty)
                          ==> volunteers[i] in r
      ensures IsSubsequence(r, volunteers)
    {
      BySpecialty(volunteers, specialty)
    }

    /** requestHelp: connects, then records a fresh pending request. The
        matching that follows after a delay is FindAndAssignVolunteer. */
    method RequestHelp(t: HelpType, description: Option<string>, id: string, timestamp: string,
                       priority: Priority := Medium)
      returns (request: HelpRequest)
      requires Valid()
      modifies this`isConnected, this`currentRequest
      ensures Valid()
      ensures request == HelpRequest(id, t, Pending, None, timestamp, UserId, description, priority)
      ensures isConnected && currentRequest == Some(request)
    {
      Connect();
      request := HelpRequest(id, t, Pending, None, timestamp, UserId, description, priority);
      currentRequest := Some(request);
    }

    /** findAndAssignVolunteer: the request becomes connected with the best
        candidate, or cancelled when there is none; nothing else changes. */
    method FindAndAssignVolunteer(request: HelpRequest)
      requires Valid()
      modifies this`currentRequest
      ensures Valid()
      ensures currentRequest.Some?
      ensures currentRequest.value.(status := request.status, volunteer := request.volunteer) == request
      ensures Candidates(volunteers, request.kind) == [] ==>
        currentRequest.value == request.(status := Cancelled)
      ensures Candidates(volunteers, request.kind) != [] ==>
        currentRequest.value.status == Connected && currentRequest.value.volunteer.Some? &&
        exists k: nat :: ChosenAt(Candidates(volunteers, request.kind), k) &&
          Candidates(volunteers, request.kind)[k] == currentRequest.value.volunteer.value
    {
      var candidates := Candidates(volunteers, request.kind);
      if |candidates| > 0 {
        var k := SelectVolunteer(candidates);
        currentRequest := Some(request.(status := Connected, volunteer := Some(candidates[k])));
      } else {
        currentRequest := Some(request.(status := Cancelled));
      }
    }

    /** The reply generateVolunteerResponse sends: none without an assigned
        volunteer, otherwise one from that volunteer. */
    function VolunteerResponse(userMessage: string): (r: Option<Reply>)
      reads this
      ensures r.None? <==> currentRequest.None? || currentRequest.value.volunteer.None?
      ensures r.Some? ==> r.value.sender == currentRequest.value.volunteer.value
      ensures r.Some? ==> r.value.category == ReplyCategoryFor(userMessage, currentRequest.value.kind)
    {
      match currentRequest
      case None => None
      case Some(req) =>
        match req.volunteer
        case None => None
        case Some(v) => Some(Reply(v, ReplyCategoryFor(userMessage, req.kind)))
    }

    /** endSession: completes the current request when the id matches. */
    method EndSession(requestId: string)
      modifies this`currentRequest
      ensures old(currentRequest).Some? && old(currentRequest).value.id == requestId ==>
        currentRequest == Some(old(currentRequest).value.(status := Completed))
      ensures !(old(currentRequest).Some? && old(currentRequest).value.id == requestId) ==>
        currentRequest == old(currentRequest)
    {
      if currentRequest.Some? && currentRequest.value.id == requestId {
        currentRequest := Some(currentRequest.value.(status := Completed));
      }
    }

    /** rateVolunteer: updates the rating of the first volunteer with that id. */
    method RateVolunteer(volunteerId: string, stars: int)
      requires Valid()
      modifies this`volunteers
      ensures Valid()
      ensures match FindIndex(old(volunteers), (v: Volunteer) => v.id == volunteerId)
        case None => volunteers == old(volunteers)
        case Some(i) => volunteers == old(volunteers)[i := old(volunteers)[i].(rating := NewRating(old(volunteers)[i].rating, stars))]
    {
      match FindIndex(volunteers, (v: Volunteer) => v.id == volunteerId)
      case None =>
      case Some(i) =>
        volunteers := volunteers[i := volunteers[i].(rating := NewRating(volunteers[i].rating, stars))];
    }

    /** One tick of simulateVolunteerStatusChanges, given its two draws in
        [0, 1): the drawn volunteer goes on- or offline with chance 0.2. */
    method SimulateStatusChange(pickDraw: real, flipDraw: real)
      requires Valid()
      requires 0.0 <= pickDraw < 1.0
      modifies this`volunteers
      ensures Valid()
      ensures var i := (pickDraw * |old(volunteers)| as real).Floor;
        0 <= i < |volunteers| &&
        volunteers == if flipDraw > 0.8
          then old(volunteers)[i := old(volunteers)[i].(isOnline := !old(volunteers)[i].isOnline)]
          else old(volunteers)
    {
      var i := (pickDraw * |volunteers| as real).Floor;
      if flipDraw > 0.8 {
        volunteers := volunteers[i := volunteers[i].(isOnline := !volunteers[i].isOnline)];
      }
    }

    method OnMessage(h: HandlerId)
      modifies this`messageHandlers
      ensures messageHandlers == old(messageHandlers) + [h]
    {
      messageHandlers := messageHandlers + [h];
    }

    method OnStatusChange(h: HandlerId)
      modifies this`statusHandlers
      ensures statusHandlers == old(statusHandlers) + [h]
    {
      statusHandlers := statusHandlers + [h];
    }

    /** removeMessageHandler: drops every registration of `h`. */
    method RemoveMessageHandler(h: HandlerId)
      modifies this`messageHandlers
      ensures messageHandlers == Filter(old(messageHandlers), (x: HandlerId) => x != h)
      ensures h !in messageHandlers
    {
      messageHandlers := Filter(messageHandlers, (x: HandlerId) => x != h);
    }

    method RemoveStatusHandler(h: HandlerId)
      modifies this`statusHandlers
      ensures statusHandlers == Filter(old(statusHandlers), (x: HandlerId) => x != h)
      ensures h !in statusHandlers
    {
      statusHandlers := Filter(statusHandlers, (x: HandlerId) => x != h);
    }
  }

  /** Registering a handler and then removing it leaves the other handlers
      as they were, in order. */
  lemma RegisterThenRemove(hs: seq<HandlerId>, h: HandlerId)
    requires h !in hs
    ensures Filter(hs + [h], (x: HandlerId) => x != h) == hs
  {
    var p := (x: HandlerId) => x != h;
    FilterAppend(hs, [h], p);
    FilterOne(h, p);
    FilterAll(hs, p);
  }
}
