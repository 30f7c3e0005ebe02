/**
 The ticket-intake workflow of the ITSM agent: one shared state record that
 six nodes update in place, run in the fixed order
 classify_request -> query_cmdb -> check_sla -> generate_ticket
 -> comment_on_task -> generate_response.

 The state is a dictionary in which a key may be missing or hold None;
 `Slot` keeps those two cases apart because the nodes treat them
 differently. A node that raises reports a `Fault` and stops the run.
 */
module ItsmAgent {
  import opened Text

  // ----------------------------------------------------------------------
  // Values
  // ----------------------------------------------------------------------

  /** A dictionary entry: key missing, key holding None, or key holding a value. */
  datatype Slot<T> = Absent | Null | Present(value: T)

  /** The Python exceptions the nodes can raise on malformed input. */
  datatype Fault = IndexError | KeyError | AttributeError

  datatype Result<T> = Ok(value: T) | Err(fault: Fault)

  datatype Option<T> = None | Some(value: T)

  datatype Outcome = Pass | Fail(fault: Fault)

  /** HumanMessage and AIMessage. */
  datatype Role = Human | Agent

  datatype Message = Message(role: Role, content: string)

  /**
   The selected sub-task, a dictionary such as
   {"name": ..., "summary": ..., "full_details": {...}}. Each value is held
   as its textual rendering (what `str(value)` and an f-string produce);
   the rendering of a nested dictionary is not modelled.
   */
  type TaskContext = map<string, string>

  // ----------------------------------------------------------------------
  // Constants of the stubs and the message templates
  // ----------------------------------------------------------------------

  /**
   The request type. The record holds it as a string; these are the values
   the workflow uses, `Unset` standing for the empty string callers pass in.
   */
  datatype RequestType = Unset | Incident | ServiceRequest | General {
    /** The string stored in the record. */
    function Name(): string
    {
      match this
      case Unset => ""
      case Incident => "incident"
      case ServiceRequest => "service_request"
      case General => "general"
    }
  }

  const UnknownUser: string := "unknown"
  const AssetPrefix: string := "LAPTOP-"
  const AssetSuffix: string := "-001"

  const TicketPrefix: string := "TCKT-"
  const TicketSuffix: string := "-12345"
  const LinkBase: string := "https://servicenow.example.com/ticket/"

  const High: string := "high"

  const IncidentLogged: string := "Incident logged"
  const IncidentOpening: string := "\U{1F6A8} " + IncidentLogged + ": "
  const IncidentClosing: string := ". Our team is on it."
  const RequestSubmitted: string := "Request submitted"
  const RequestOpening: string := "\U{2705} " + RequestSubmitted + ": "
  const RequestClosing: string := ". Hang tight."
  // The longer templates are written as two literals: the verifier cannot read
  // characters out of one long string literal (OpeningsDiffer needs the first).
  const GenericReply: string := "Thanks for reaching out." + " We'll follow up shortly."
  const TrackLine: string := "\n\U{1F517} Track it here: "

  const UnknownTask: string := "Unknown Task"
  const EmptyDetails: string := "{}"
  const EscalationTail: string := "\n\U{26A0}\U{FE0F} I detected a possible issue." + " Recommend escalation."
  const NormalTail: string := "\n\U{2705} Task appears normal. Proceeding."

  /** How an f-string renders an entry read with `.get`: None prints as "None". */
  function Render(s: Slot<string>): (r: string)
    ensures s.Present? ==> r == s.value
    ensures !s.Present? ==> r == "None"
  {
    if s.Present? then s.value else "None"
  }

  // ----------------------------------------------------------------------
  // classify_request
  // ----------------------------------------------------------------------

  /**
   The request type of a message: keyword tests on the lower-cased text,
   password/reset before can't/error/issue before everything else.
   */
  function Classify(msg: string): (r: RequestType)
    ensures r != Unset
  {
    var text := Lower(msg);
    if Contains(text, "password") || Contains(text, "reset") then ServiceRequest
    else if Contains(text, "can't") || Contains(text, "error") || Contains(text, "issue") then Incident
    else General
  }

  /** The same decision written as an ordered table of keyword rules. */
  const Rules: seq<(seq<string>, RequestType)> :=
    [(["password", "reset"], ServiceRequest), (["can't", "error", "issue"], Incident)]

  predicate AnyKeyword(text: string, keywords: seq<string>)
  {
    exists k | 0 <= k < |keywords| :: Contains(text, keywords[k])
  }

  /** The outcome of the first rule with a keyword in `text`, else `General`. */
  function FirstMatch(rules: seq<(seq<string>, RequestType)>, text: string): RequestType
  {
    if rules == [] then General
    else if AnyKeyword(text, rules[0].0) then rules[0].1
    else FirstMatch(rules[1..], text)
  }

  lemma AnyOfTwo(text: string, a: string, b: string)
    ensures AnyKeyword(text, [a, b]) <==> Contains(text, a) || Contains(text, b)
  {
    var kws := [a, b];
    if Contains(text, a) {
      assert Contains(text, kws[0]);
    } else if Contains(text, b) {
      assert Contains(text, kws[1]);
    }
  }

  lemma AnyOfThree(text: string, a: string, b: string, c: string)
    ensures AnyKeyword(text, [a, b, c]) <==> Contains(text, a) || Contains(text, b) || Contains(text, c)
  {
    var kws := [a, b, c];
    if Contains(text, a) {
      assert Contains(text, kws[0]);
    } else if Contains(text, b) {
      assert Contains(text, kws[1]);
    } else if Contains(text, c) {
      assert Contains(text, kws[2]);
    }
  }

  lemma ClassifyFollowsRuleTable(msg: string)
    ensures Classify(msg) == FirstMatch(Rules, Lower(msg))
  {
    var text := Lower(msg);
    AnyOfTwo(text, "password", "reset");
    AnyOfThree(text, "can't", "error", "issue");
    assert Rules[0] == (["password", "reset"], ServiceRequest);
    assert Rules[1..] == [(["can't", "error", "issue"], Incident)];
    var rest := Rules[1..];
    assert rest[1..] == [];
    assert FirstMatch(rest, text) == if AnyKeyword(text, rest[0].0) then Incident else General;
  }

  /** Classification ignores letter case: upper-casing the message changes nothing. */
  lemma ClassifyIgnoresCase(msg: string)
    ensures Classify(Upper(msg)) == Classify(msg)
    ensures Classify(Lower(msg)) == Classify(msg)
  {
    LowerOfUpper(msg);
    LowerIdempotent(msg);
  }

  // ----------------------------------------------------------------------
  // query_cmdb
  // ----------------------------------------------------------------------

  /**
   `state.get("user_context", {}).get("username", "unknown")`: the default
   applies when either key is missing; a user_context holding None faults.
   */
  function ResolveUsername(userContext: Slot<map<string, string>>): (r: Result<string>)
    ensures r.Err? <==> userContext == Null
    ensures r.Err? ==> r.fault == AttributeError
    ensures userContext == Absent ==> r == Ok(UnknownUser)
    ensures userContext.Present? ==> r == Ok(GetOr(userContext.value, "username", UnknownUser))
  {
    match userContext
    case Absent => Ok(UnknownUser)
    case Null => Err(AttributeError)
    case Present(d) => Ok(GetOr(d, "username", UnknownUser))
  }

  /** The stub asset identifier of a user. */
  function AssetId(user: string): string
  {
    AssetPrefix + Upper(user) + AssetSuffix
  }

  /** The user part of an asset identifier, if it has the stub's shape. */
  function AssetOwner(asset: string): Option<string>
  {
    if StartsWith(asset, AssetPrefix) && |asset| >= |AssetPrefix| + |AssetSuffix|
       && EndsWith(asset, AssetSuffix)
    then Some(asset[|AssetPrefix|..|asset| - |AssetSuffix|])
    else None
  }

  /**
   A caller whose user context has no username (or who supplies no user
   context, which reads as the empty dictionary) is charged the asset
   "LAPTOP-UNKNOWN-001".
   */
  lemma UnknownUserAsset(d: map<string, string>)
    requires "username" !in d
    ensures AssetId(GetOr(d, "username", UnknownUser)) == "LAPTOP-UNKNOWN-001"
  {
  }

  /** An asset id gives back the upper-cased user name and holds no lower-case letter. */
  lemma AssetIdRoundTrip(user: string)
    ensures AssetOwner(AssetId(user)) == Some(Upper(user))
    ensures Upper(AssetId(user)) == AssetId(user)
    ensures forall i :: 0 <= i < |AssetId(user)| ==> !IsLowerAscii(AssetId(user)[i])
  {
  }

  // ----------------------------------------------------------------------
  // check_sla_and_route
  // ----------------------------------------------------------------------

  /**
   The escalation flag after the SLA check: set when urgency is "high",
   otherwise exactly as it was. It is never cleared.
   */
  function Escalate(urgency: Slot<string>, flag: Slot<bool>): (r: Slot<bool>)
    ensures r == Present(true) <==> urgency == Present(High) || flag == Present(true)
    ensures urgency != Present(High) ==> r == flag
  {
    if urgency == Present(High) then Present(true) else flag
  }

  // ----------------------------------------------------------------------
  // generate_ticket
  // ----------------------------------------------------------------------

  /** The stub ticket id: "TCKT-" + upper(request_type[:3]) + "-12345". */
  function TicketId(requestType: string): string
  {
    TicketPrefix + Upper(Take(requestType, 3)) + TicketSuffix
  }

  /** The tracking link of a ticket. */
  function ServiceLink(ticketId: string): string
  {
    LinkBase + ticketId
  }

  /** The ticket a tracking link points to. */
  function LinkedTicket(link: string): Option<string>
  {
    if StartsWith(link, LinkBase) then Some(link[|LinkBase|..]) else None
  }

  lemma ServiceLinkRoundTrip(ticketId: string)
    ensures LinkedTicket(ServiceLink(ticketId)) == Some(ticketId)
  {
  }

  /** The format `TCKT-[A-Z]{3}-\d+`. */
  predicate IsTicketId(t: string)
  {
    |t| > 9 && t[..5] == TicketPrefix
    && (forall i :: 5 <= i < 8 ==> IsUpperAscii(t[i]))
    && t[8] == '-'
    && (forall i :: 9 <= i < |t| ==> IsDigit(t[i]))
  }

  /**
   A ticket id is well formed exactly when the request type starts with
   three ASCII letters.
   */
  lemma TicketIdFormat(requestType: string)
    ensures IsTicketId(TicketId(requestType)) <==>
      |requestType| >= 3 && forall i :: 0 <= i < 3 ==> IsAsciiLetter(requestType[i])
  {
    var code := Upper(Take(requestType, 3));
    var t := TicketId(requestType);
    assert t == TicketPrefix + code + TicketSuffix;
    assert |code| <= 3;
    assert forall i :: 0 <= i < |code| ==> t[5 + i] == code[i];
    assert forall i :: 0 <= i < |TicketSuffix| ==> t[5 + |code| + i] == TicketSuffix[i];
    if |requestType| >= 3 && forall i :: 0 <= i < 3 ==> IsAsciiLetter(requestType[i]) {
      assert forall i :: 0 <= i < 3 ==> code[i] == UpperChar(requestType[i]);
      assert t[..5] == TicketPrefix;
    } else if |requestType| >= 3 {
      var j :| 0 <= j < 3 && !IsAsciiLetter(requestType[j]);
      assert code[j] == UpperChar(requestType[j]);
      assert !IsUpperAscii(t[5 + j]);
    } else {
      assert t[5 + |code|] == '-';
    }
  }

  /** The three-letter code a request type contributes to its ticket id. */
  lemma TicketCode(word: string, code: string)
    requires |word| >= 3 && |code| == 3
    requires forall i :: 0 <= i < 3 ==> IsLowerAscii(word[i]) && code[i] as int == word[i] as int - 32
    ensures TicketId(word) == TicketPrefix + code + TicketSuffix
  {
  }

  /** The ticket id of a classified message has the documented format and prefix. */
  lemma ClassifiedTicket(msg: string)
    ensures IsTicketId(TicketId(Classify(msg).Name()))
    ensures StartsWith(TicketId(Classify(msg).Name()), "TCKT-SER") <==> Classify(msg) == ServiceRequest
    ensures StartsWith(TicketId(Classify(msg).Name()), "TCKT-INC") <==> Classify(msg) == Incident
    ensures StartsWith(TicketId(Classify(msg).Name()), "TCKT-GEN") <==> Classify(msg) == General
  {
    var rt := Classify(msg);
    var t := TicketId(rt.Name());
    var code := if rt == ServiceRequest then "SER" else if rt == Incident then "INC" else "GEN";
    TicketCode(rt.Name(), code);
    TicketIdFormat(rt.Name());
    assert t[5] == code[0];
    // The three codes differ in their first letter.
    assert StartsWith(t, "TCKT-SER") ==> t[5] == 'S';
    assert StartsWith(t, "TCKT-INC") ==> t[5] == 'I';
    assert StartsWith(t, "TCKT-GEN") ==> t[5] == 'G';
    assert StartsWith(t, TicketPrefix + code);
  }

  // ----------------------------------------------------------------------
  // comment_on_task
  // ----------------------------------------------------------------------

  /** The heading line of a commentary on the task named `name`. */
  function ReviewHeading(name: string): string
  {
    "\U{1F9E0} Reviewing task: **" + name + "**\n"
  }

  /** The lines of a commentary before its diagnostic tail. */
  function CommentaryBody(name: string, summary: string, details: string): string
  {
    ReviewHeading(name) + ("Summary: " + summary + "\n") + ("Details: " + details + "\n")
  }

  /** The diagnostic tail: escalation if the details mention "error" in any case. */
  function DiagnosticTail(details: string): string
  {
    if Contains(Lower(details), "error") then EscalationTail else NormalTail
  }

  /** The commentary on a selected task, with its diagnostic tail. */
  function Commentary(task: TaskContext): string
  {
    var details := GetOr(task, "full_details", EmptyDetails);
    CommentaryBody(GetOr(task, "name", UnknownTask), GetOr(task, "summary", ""), details)
    + DiagnosticTail(details)
  }

  /** A commentary names the task and carries its summary and details. */
  lemma CommentaryShape(task: TaskContext)
    ensures StartsWith(Commentary(task), ReviewHeading(GetOr(task, "name", UnknownTask)))
    ensures Contains(Commentary(task), "Summary: " + GetOr(task, "summary", "") + "\n")
    ensures Contains(Commentary(task), "Details: " + GetOr(task, "full_details", EmptyDetails) + "\n")
  {
    var head := ReviewHeading(GetOr(task, "name", UnknownTask));
    var s := "Summary: " + GetOr(task, "summary", "") + "\n";
    var d := "Details: " + GetOr(task, "full_details", EmptyDetails) + "\n";
    var tail := DiagnosticTail(GetOr(task, "full_details", EmptyDetails));
    assert Commentary(task) == head + s + d + tail;
    FourParts(head, s, d, tail);
  }

  /**
   A commentary ends with the escalation tail exactly when the task's
   details mention "error" in any letter case, and with the normal tail
   exactly otherwise.
   */
  lemma CommentaryTail(task: TaskContext)
    ensures EndsWith(Commentary(task), EscalationTail) <==>
      Contains(Lower(GetOr(task, "full_details", EmptyDetails)), "error")
    ensures EndsWith(Commentary(task), NormalTail) <==>
      !Contains(Lower(GetOr(task, "full_details", EmptyDetails)), "error")
  {
    var details := GetOr(task, "full_details", EmptyDetails);
    var body := CommentaryBody(GetOr(task, "name", UnknownTask), GetOr(task, "summary", ""), details);
    var c := Commentary(task);
    // The two tails differ in their next-to-last character.
    assert EscalationTail[|EscalationTail| - 2] == 'n';
    assert NormalTail[|NormalTail| - 2] == 'g';
    if Contains(Lower(details), "error") {
      EndsWithConcat(body, EscalationTail);
      EndsWithExcludes(c, EscalationTail, NormalTail, 2);
    } else {
      EndsWithConcat(body, NormalTail);
      EndsWithExcludes(c, NormalTail, EscalationTail, 2);
    }
  }

  /** The commentary after the node: written only for a non-empty task context. */
  function CommentaryAfter(task: Slot<TaskContext>, commentary: Slot<string>): (r: Slot<string>)
    ensures r != commentary ==> task.Present? && task.value != map[]
    ensures task.Present? && task.value != map[] ==> r == Present(Commentary(task.value))
  {
    match task
    case Present(t) => if t == map[] then commentary else Present(Commentary(t))
    case _ => commentary
  }

  // ----------------------------------------------------------------------
  // generate_response
  // ----------------------------------------------------------------------

  /** The agent's reply for a request type, ticket id and tracking link. */
  function Reply(requestType: RequestType, ticketId: string, link: string): string
  {
    ReplyOpening(requestType, ticketId) + TrackLine + link
  }

  /** The sentence a reply opens with, before its tracking line. */
  function ReplyOpening(requestType: RequestType, ticketId: string): string
  {
    if requestType == Incident then IncidentOpening + ticketId + IncidentClosing
    else if requestType == ServiceRequest then RequestOpening + ticketId + RequestClosing
    else GenericReply
  }

  /** The three kinds of opening are told apart by their first character. */
  lemma OpeningsDiffer(ticketId: string)
    ensures (IncidentOpening + ticketId)[0] == '\U{1F6A8}'
    ensures (RequestOpening + ticketId)[0] == '\U{2705}'
    ensures GenericReply[0] == 'T'
  {
  }

  /**
   The opening of a reply identifies the request type, and every reply
   ends with the tracking line.
   */
  lemma ReplyShape(requestType: RequestType, ticketId: string, link: string)
    ensures EndsWith(Reply(requestType, ticketId, link), TrackLine + link)
    ensures StartsWith(Reply(requestType, ticketId, link), IncidentOpening + ticketId) <==>
      requestType == Incident
    ensures StartsWith(Reply(requestType, ticketId, link), RequestOpening + ticketId) <==>
      requestType == ServiceRequest
    ensures StartsWith(Reply(requestType, ticketId, link), GenericReply) <==>
      requestType != Incident && requestType != ServiceRequest
  {
    var r := Reply(requestType, ticketId, link);
    var incident := IncidentOpening + ticketId;
    var request := RequestOpening + ticketId;
    var opening := ReplyOpening(requestType, ticketId);
    assert r == opening + (TrackLine + link);
    EndsWithConcat(opening, TrackLine + link);
    OpeningsDiffer(ticketId);
    if requestType == Incident {
      assert r == incident + (IncidentClosing + TrackLine + link);
      StartsWithConcat(incident, IncidentClosing + TrackLine + link);
      StartsWithExcludes(r, incident, request, 0);
      StartsWithExcludes(r, incident, GenericReply, 0);
    } else if requestType == ServiceRequest {
      assert r == request + (RequestClosing + TrackLine + link);
      StartsWithConcat(request, RequestClosing + TrackLine + link);
      StartsWithExcludes(r, request, incident, 0);
      StartsWithExcludes(r, request, GenericReply, 0);
    } else {
      StartsWithConcat(GenericReply, TrackLine + link);
      StartsWithExcludes(r, GenericReply, incident, 0);
      StartsWithExcludes(r, GenericReply, request, 0);
    }
  }

  /**
   `generate_response` building its reply from the state: the ticket id is
   read with `state['ticket_id']` (a missing key raises), the link with
   `.get` (a missing link prints as "None").
   */
  function ComposeReply(requestType: RequestType, ticketId: Slot<string>, link: Slot<string>): (r: Result<string>)
    ensures r.Err? <==> ticketId == Absent && (requestType == Incident || requestType == ServiceRequest)
    ensures r.Err? ==> r.fault == KeyError
    ensures r.Ok? ==> r.value == Reply(requestType, Render(ticketId), Render(link))
  {
    if ticketId == Absent && (requestType == Incident || requestType == ServiceRequest) then Err(KeyError)
    else Ok(Reply(requestType, Render(ticketId), Render(link)))
  }

  // ----------------------------------------------------------------------
  // The state record and the whole run, as values
  // ----------------------------------------------------------------------

  datatype State = State(
    messages: seq<Message>,
    requestType: RequestType,
    urgency: Slot<string>,
    userContext: Slot<map<string, string>>,
    ticketId: Slot<string>,
    escalationFlag: Slot<bool>,
    resolution: Slot<string>,
    cmdbAsset: Slot<string>,
    serviceNowLink: Slot<string>,
    activeTaskId: Slot<string>,
    activeTaskContext: Slot<TaskContext>,
    agentCommentary: Slot<string>)

  // Each node as a function from the record before it to the record after it.

  /** classify_request: an empty history raises IndexError on `messages[-1]`. */
  function ClassifyStep(s: State): Result<State>
  {
    if |s.messages| == 0 then Err(IndexError)
    else Ok(s.(requestType := Classify(s.messages[|s.messages| - 1].content)))
  }

  /** query_cmdb: a user_context holding None raises AttributeError. */
  function QueryCmdbStep(s: State): Result<State>
  {
    match ResolveUsername(s.userContext)
    case Err(f) => Err(f)
    case Ok(user) => Ok(s.(cmdbAsset := Present(AssetId(user))))
  }

  /** check_sla_and_route. */
  function CheckSlaStep(s: State): State
  {
    s.(escalationFlag := Escalate(s.urgency, s.escalationFlag))
  }

  /** generate_ticket. */
  function GenerateTicketStep(s: State): State
  {
    var ticket := TicketId(s.requestType.Name());
    s.(ticketId := Present(ticket), serviceNowLink := Present(ServiceLink(ticket)))
  }

  /** comment_on_task. */
  function CommentOnTaskStep(s: State): State
  {
    s.(agentCommentary := CommentaryAfter(s.activeTaskContext, s.agentCommentary))
  }

  /** generate_response: a missing ticket_id raises KeyError before anything is appended. */
  function GenerateResponseStep(s: State): Result<State>
  {
    match ComposeReply(s.requestType, s.ticketId, s.serviceNowLink)
    case Err(f) => Err(f)
    case Ok(reply) => Ok(s.(messages := s.messages + [Message(Agent, reply)]))
  }

  /**
   What one invocation of the compiled workflow does to a record: the six
   nodes in the order of their edges, stopping at the first that raises.
   */
  function Run(s: State): Result<State>
  {
    match ClassifyStep(s)
    case Err(f) => Err(f)
    case Ok(classified) =>
      match QueryCmdbStep(classified)
      case Err(f) => Err(f)
      case Ok(resolved) =>
        GenerateResponseStep(CommentOnTaskStep(GenerateTicketStep(CheckSlaStep(resolved))))
  }

  /** The outcome a node or run reports. */
  function OutcomeOf(r: Result<State>): Outcome
  {
    if r.Ok? then Pass else Fail(r.fault)
  }

  /** The record after a node or run: unchanged when it raised. */
  function After(r: Result<State>, before: State): State
  {
    if r.Ok? then r.value else before
  }

  /** A run fails only on an empty history or a user_context holding None. */
  lemma RunFaults(s: State)
    ensures Run(s).Err? <==> |s.messages| == 0 || s.userContext == Null
    ensures |s.messages| == 0 ==> Run(s) == Err(IndexError)
    ensures |s.messages| > 0 && s.userContext == Null ==> Run(s) == Err(AttributeError)
  {
  }

  /** A run appends exactly one agent message and keeps the history as it was. */
  lemma RunAppendsOneReply(s: State)
    requires Run(s).Ok?
    ensures var r := Run(s).value;
      && |r.messages| == |s.messages| + 1 && r.messages[..|s.messages|] == s.messages
      && r.ticketId.Present? && r.serviceNowLink.Present?
      && r.messages[|r.messages| - 1] ==
         Message(Agent, Reply(r.requestType, r.ticketId.value, r.serviceNowLink.value))
  {
  }

  /**
   The request type is decided from the latest message before the ticket
   is issued, and the ticket, link and reply follow from it.
   */
  lemma RunTicketFollowsClassification(s: State)
    requires Run(s).Ok?
    ensures var r := Run(s).value;
      && r.requestType == Classify(s.messages[|s.messages| - 1].content)
      && r.ticketId == Present(TicketId(r.requestType.Name()))
      && IsTicketId(r.ticketId.value)
      && r.serviceNowLink == Present(ServiceLink(r.ticketId.value))
      && EndsWith(r.messages[|r.messages| - 1].content, TrackLine + r.serviceNowLink.value)
  {
    var msg := s.messages[|s.messages| - 1].content;
    var ticketed := GenerateTicketStep(CheckSlaStep(QueryCmdbStep(ClassifyStep(s).value).value));
    var r := Run(s).value;
    assert ticketed.requestType == Classify(msg);
    assert r == GenerateResponseStep(CommentOnTaskStep(ticketed)).value;
    ClassifiedTicket(msg);
    ReplyShape(r.requestType, r.ticketId.value, r.serviceNowLink.value);
  }

  /** The escalation flag is true after a run iff urgency is "high" or it was true before. */
  lemma RunEscalationMonotone(s: State)
    requires Run(s).Ok?
    ensures Run(s).value.escalationFlag == Present(true) <==>
      s.urgency == Present(High) || s.escalationFlag == Present(true)
    ensures s.urgency != Present(High) ==> Run(s).value.escalationFlag == s.escalationFlag
  {
  }

  /**
   Only the latest message is consulted: two states that differ in their
   earlier history get the same ticket, link and reply.
   */
  lemma RunIgnoresEarlierHistory(s: State, t: State)
    requires |s.messages| > 0 && |t.messages| > 0
    requires s.messages[|s.messages| - 1] == t.messages[|t.messages| - 1]
    requires s.(messages := t.messages) == t
    ensures Run(s).Ok? <==> Run(t).Ok?
    ensures Run(s).Ok? ==>
      && Run(s).value.requestType == Run(t).value.requestType
      && Run(s).value.ticketId == Run(t).value.ticketId
      && Run(s).value.serviceNowLink == Run(t).value.serviceNowLink
      && Run(s).value.messages[|s.messages|] == Run(t).value.messages[|t.messages|]
  {
  }

  /**
   The asset id is the stub id of the resolved user; the commentary is
   written only for a non-empty task context; fields no node writes are
   left alone.
   */
  lemma RunOtherFields(s: State)
    requires Run(s).Ok?
    ensures var r := Run(s).value;
      && r.cmdbAsset == Present(AssetId(ResolveUsername(s.userContext).value))
      && (s.userContext == Absent ==> r.cmdbAsset == Present("LAPTOP-UNKNOWN-001"))
      && (r.agentCommentary != s.agentCommentary ==> s.activeTaskContext.Present? && s.activeTaskContext.value != map[])
      && r.agentCommentary == CommentaryAfter(s.activeTaskContext, s.agentCommentary)
      && r.urgency == s.urgency && r.userContext == s.userContext
      && r.resolution == s.resolution && r.activeTaskId == s.activeTaskId
      && r.activeTaskContext == s.activeTaskContext
  {
    var resolved := QueryCmdbStep(ClassifyStep(s).value).value;
    assert Run(s).value == GenerateResponseStep(CommentOnTaskStep(GenerateTicketStep(CheckSlaStep(resolved)))).value;
    UnknownUserAsset(map[]);
  }

  // ----------------------------------------------------------------------
  // The state record the nodes update in place
  // ----------------------------------------------------------------------

  class ItsmState {
    var messages: seq<Message>
    var requestType: RequestType
    var urgency: Slot<string>
    var userContext: Slot<map<string, string>>
    var ticketId: Slot<string>
    var escalationFlag: Slot<bool>
    var resolution: Slot<string>
    var cmdbAsset: Slot<string>
    var serviceNowLink: Slot<string>
    var activeTaskId: Slot<string>
    var activeTaskContext: Slot<TaskContext>
    var agentCommentary: Slot<string>

    /** The record's current contents as a value. */
    function View(): State
      reads this
    {
      State(messages, requestType, urgency, userContext, ticketId, escalationFlag,
            resolution, cmdbAsset, serviceNowLink, activeTaskId, activeTaskContext,
            agentCommentary)
    }

    /** A record built by the caller for one invocation. */
    constructor (s: State)
      ensures View() == s
    {
      messages, requestType, urgency, userContext := s.messages, s.requestType, s.urgency, s.userContext;
      ticketId, escalationFlag, resolution, cmdbAsset := s.ticketId, s.escalationFlag, s.resolution, s.cmdbAsset;
      serviceNowLink, activeTaskId := s.serviceNowLink, s.activeTaskId;
      activeTaskContext, agentCommentary := s.activeTaskContext, s.agentCommentary;
    }

    /** classify_request: classify the latest message; an empty history raises. */
    method ClassifyRequest() returns (outcome: Outcome)
      modifies this
      ensures outcome == OutcomeOf(ClassifyStep(old(View())))
      ensures View() == After(ClassifyStep(old(View())), old(View()))
    {
      if |messages| == 0 {
        return Fail(IndexError);
      }
      requestType := Classify(messages[|messages| - 1].content);
      outcome := Pass;
    }

    /** query_cmdb: record the stub asset of the user; user_context None raises. */
    method QueryCmdb() returns (outcome: Outcome)
      modifies this
      ensures outcome == OutcomeOf(QueryCmdbStep(old(View())))
      ensures View() == After(QueryCmdbStep(old(View())), old(View()))
    {
      var user := ResolveUsername(userContext);
      if user.Err? {
        return Fail(user.fault);
      }
      cmdbAsset := Present(AssetId(user.value));
      outcome := Pass;
    }

    /** check_sla_and_route: set the escalation flag on high urgency, never clear it. */
    method CheckSlaAndRoute()
      modifies this
      ensures View() == CheckSlaStep(old(View()))
      ensures old(escalationFlag) == Present(true) ==> escalationFlag == Present(true)
    {
      if urgency == Present(High) {
        escalationFlag := Present(true);
      }
    }

    /** generate_ticket: issue the stub ticket id and its tracking link. */
    method GenerateTicket()
      modifies this
      ensures View() == GenerateTicketStep(old(View()))
      ensures ticketId.Present? && LinkedTicket(serviceNowLink.value) == Some(ticketId.value)
    {
      var ticket := TicketId(requestType.Name());
      ticketId := Present(ticket);
      serviceNowLink := Present(ServiceLink(ticket));
      ServiceLinkRoundTrip(ticket);
    }

    /** comment_on_task: comment on the selected task, if one is selected. */
    method CommentOnTask()
      modifies this
      ensures View() == CommentOnTaskStep(old(View()))
    {
      if activeTaskContext.Present? && activeTaskContext.value != map[] {
        agentCommentary := Present(Commentary(activeTaskContext.value));
      }
    }

    /** generate_response: append the agent's reply; a missing ticket_id raises. */
    method GenerateResponse() returns (outcome: Outcome)
      modifies this
      ensures outcome == OutcomeOf(GenerateResponseStep(old(View())))
      ensures View() == After(GenerateResponseStep(old(View())), old(View()))
    {
      var reply := ComposeReply(requestType, ticketId, serviceNowLink);
      if reply.Err? {
        return Fail(reply.fault);
      }
      messages := messages + [Message(Agent, reply.value)];
      outcome := Pass;
    }

    /**
     One invocation of the compiled workflow: the six nodes in the order of
     its edges, stopping at the first that raises.
     */
    method Invoke() returns (outcome: Outcome)
      modifies this
      ensures outcome == OutcomeOf(Run(old(View())))
      ensures outcome.Pass? ==> View() == Run(old(View())).value
      ensures outcome.Fail? ==> View() == After(ClassifyStep(old(View())), old(View()))
    {
      outcome := ClassifyRequest();
      if outcome.Fail? {
        return;
      }
      outcome := QueryCmdb();
      if outcome.Fail? {
        return;
      }
      CheckSlaAndRoute();
      GenerateTicket();
      CommentOnTask();
      outcome := GenerateResponse();
    }
  }
}
