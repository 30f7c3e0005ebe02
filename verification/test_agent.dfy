/**
 The scenarios of the repository's unit tests (tests/test_agent.py), each
 stated on a fresh record and proved through `Invoke`. Each message is written
 as the concatenation of its parts around the keyword that decides it.
 */
module AgentTests {
  import opened Text
  import opened ItsmAgent

  const IncidentMessage: string := "I " + "can't" + " log into my laptop"
  const ResetMessage: string := "Please " + "reset" + " my password"
  const IssueMessage: string := "I have an " + "issue" + " with my email"

  /** The record a test builds: one user message, no ticket yet, no task selected. */
  function Submission(message: string, urgency: string, user: string, department: string): State
  {
    State([Message(Human, message)], Unset, Present(urgency),
          Present(map["username" := user, "department" := department]),
          Null, Present(false), Null, Null, Null, Absent, Absent, Absent)
  }

  /** A keyword in the middle of a message occurs in its lower case. */
  lemma KeywordSurvivesLowering(before: string, keyword: string, after: string)
    requires forall i :: 0 <= i < |keyword| ==> !IsUpperAscii(keyword[i])
    ensures Contains(Lower(before + keyword + after), keyword)
  {
    LowerAppend(before + keyword, after);
    LowerAppend(before, keyword);
    LowerKeeps(keyword);
    ContainsMiddle(Lower(before), keyword, Lower(after));
  }

  lemma IncidentMessageClassified()
    ensures Classify(IncidentMessage) == Incident
  {
    var text := Lower(IncidentMessage);
    LowerLacks(IncidentMessage, 'w');
    LowerLacks(IncidentMessage, 'r');
    MissingCharExcludes(text, "password", 'w');
    MissingCharExcludes(text, "reset", 'r');
    KeywordSurvivesLowering("I ", "can't", " log into my laptop");
  }

  lemma ResetMessageClassified()
    ensures Classify(ResetMessage) == ServiceRequest
  {
    KeywordSurvivesLowering("Please ", "reset", " my password");
  }

  lemma JdoeAsset()
    ensures AssetId("jdoe") == "LAPTOP-JDOE-001"
  {
  }

  /** A reply that opens with `opening` carries the words in its middle. */
  lemma ReplyCarries(reply: string, opening: string, mark: string, words: string, ticketId: string)
    requires opening == mark + words + ": "
    requires StartsWith(reply, opening + ticketId)
    ensures Contains(reply, words)
  {
    ContainsMiddle(mark, words, ": " + ticketId);
    assert mark + words + (": " + ticketId) == opening + ticketId;
    ContainsThroughPrefix(reply, opening + ticketId, words);
  }

  /** test_incident_classification_and_ticket */
  method IncidentClassificationAndTicket()
    returns (requestType: RequestType, ticketId: string, reply: string, escalated: Slot<bool>, asset: Slot<string>)
    ensures requestType == Incident
    ensures StartsWith(ticketId, "TCKT-INC")
    ensures Contains(reply, IncidentLogged)
    ensures escalated == Present(true)
    ensures asset == Present("LAPTOP-JDOE-001")
  {
    var s := Submission(IncidentMessage, "high", "jdoe", "finance");
    var record := new ItsmState(s);
    var outcome := record.Invoke();
    RunFaults(s);
    RunTicketFollowsClassification(s);
    RunAppendsOneReply(s);
    IncidentMessageClassified();
    ClassifiedTicket(IncidentMessage);
    requestType, ticketId := record.requestType, record.ticketId.value;
    reply := record.messages[|record.messages| - 1].content;
    ReplyShape(requestType, ticketId, record.serviceNowLink.value);
    ReplyCarries(reply, IncidentOpening, "\U{1F6A8} ", IncidentLogged, ticketId);
    RunEscalationMonotone(s);
    RunOtherFields(s);
    JdoeAsset();
    escalated, asset := record.escalationFlag, record.cmdbAsset;
  }

  /** test_service_request_classification */
  method ServiceRequestClassification() returns (requestType: RequestType, ticketId: string, reply: string)
    ensures requestType == ServiceRequest
    ensures StartsWith(ticketId, "TCKT-SER")
    ensures Contains(reply, RequestSubmitted)
  {
    var s := Submission(ResetMessage, "medium", "alice", "hr");
    var record := new ItsmState(s);
    var outcome := record.Invoke();
    RunFaults(s);
    RunTicketFollowsClassification(s);
    RunAppendsOneReply(s);
    ResetMessageClassified();
    ClassifiedTicket(ResetMessage);
    requestType, ticketId := record.requestType, record.ticketId.value;
    reply := record.messages[|record.messages| - 1].content;
    ReplyShape(requestType, ticketId, record.serviceNowLink.value);
    ReplyCarries(reply, RequestOpening, "\U{2705} ", RequestSubmitted, ticketId);
  }

  /** test_ticket_id_format */
  method TicketIdFormatScenario() returns (ticketId: string)
    ensures IsTicketId(ticketId)
  {
    var s := Submission(IssueMessage, "low", "bob", "ops");
    var record := new ItsmState(s);
    var outcome := record.Invoke();
    RunFaults(s);
    RunTicketFollowsClassification(s);
    ticketId := record.ticketId.value;
  }

  /**
   Two invocations on equal records end alike: the same outcome and the
   same record, so the same ticket, link and reply.
   */
  method RepeatedInvocation(s: State) returns (first: State, second: State)
    ensures first == second
    ensures |s.messages| > 0 && s.userContext != Null ==>
      first.ticketId.Present? && |first.messages| == |s.messages| + 1
  {
    var a := new ItsmState(s);
    var b := new ItsmState(s);
    var outcomeA := a.Invoke();
    var outcomeB := b.Invoke();
    RunFaults(s);
    if outcomeA.Pass? {
      RunAppendsOneReply(s);
    }
    first, second := a.View(), b.View();
  }

  /**
   The record the task-chat page builds: no urgency, a user_context holding
   None, and a selected task. Every such invocation faults in query_cmdb,
   before comment_on_task can run.
   */
  lemma TaskChatFaults(history: seq<Message>, taskId: string, task: TaskContext)
    requires |history| > 0
    ensures Run(State(history, Unset, Null, Null, Null, Null, Null, Null, Null,
                      Present(taskId), Present(task), Null)) == Err(AttributeError)
  {
  }
}
