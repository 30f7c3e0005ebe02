# ITSM agent ticket-intake workflow, in Dafny

The ITSM agent takes an employee's chat message and runs it through a fixed
LangGraph workflow of six nodes. Every node reads and writes one shared state
record (`ITSMState`):

1. `classify_request` picks the request type from the latest message by keyword.
2. `query_cmdb` builds the stub asset id of the user.
3. `check_sla_and_route` raises the escalation flag on high urgency.
4. `generate_ticket` issues the stub ticket id and its tracking link.
5. `comment_on_task` comments on a sub-task the caller selected, if there is one.
6. `generate_response` appends the agent's reply to the message list.

The project has three modules:

- `Text` (`text.dfy`) holds the string operations the nodes use: ASCII
  `lower`/`upper`, the substring test `in`, prefix slicing and `dict.get`.
- `ItsmAgent` (`itsm_agent.dfy`) holds the model itself:
  - the pure decisions and string builders (classification, asset id, ticket
    id, link, reply, commentary);
  - each node as a function from record to record (`ClassifyStep` …
    `GenerateResponseStep`), and `Run`, their composition in edge order;
  - the class `ItsmState`, the record the nodes update in place. Each node is
    a method whose new state is its step function applied to the old state.
    `Invoke` runs the nodes in order and is proved equal to `Run`.
- `AgentTests` (`test_agent.dfy`) holds the scenarios of `tests/test_agent.py`,
  proved on fresh records through `Invoke`.

A dictionary entry of the record can be missing, hold None or hold a value.
The nodes treat these three cases differently, so the model keeps them apart
as `Slot<T> = Absent | Null | Present(value)`.

Three exceptions the Python code raises are modelled as outcomes (`Fault`)
rather than excluded by preconditions:

- an empty message list raises `IndexError` in `classify_request`;
- a `user_context` holding None raises `AttributeError` in `query_cmdb`;
- a missing `ticket_id` raises `KeyError` in `generate_response` when the request type is incident or service_request; within a run it cannot happen, because generate_ticket always sets the ticket (see `RunFaults`).

A node that raises stops the run. No later node runs.

## Model

| member | source | states |
|---|---|---|
| Text.Lower | itsm_agent/itsm_agent.py:30 | `str.lower` keeps the length and lower-cases every ASCII letter in place, leaving other characters alone |
| Text.Upper | itsm_agent/itsm_agent.py:43 | `str.upper` keeps the length and upper-cases every ASCII letter in place, leaving other characters alone |
| Text.Take | itsm_agent/itsm_agent.py:54 | `s[:3]` never fails: its length is the smaller of 3 and the length, and it is a prefix of `s` |
| Text.GetOr | itsm_agent/itsm_agent.py:41 | `d.get(key, default)` is the stored value when the key is present and the default otherwise |
| Text.LowerOfUpper | itsm_agent/itsm_agent.py:30 | for ASCII case mapping, lower-casing an upper-cased text gives the lower case of the original |
| Text.MissingCharExcludes | itsm_agent/itsm_agent.py:31-33 | a text lacking one character of a keyword does not contain the keyword |
| ItsmAgent.Render | itsm_agent/itsm_agent.py:60-65 | an f-string renders a present value as itself, and a missing or None value as "None" |
| ItsmAgent.Classify | itsm_agent/itsm_agent.py:29-38 | classification always sets one of incident, service_request, general, never the empty type |
| ItsmAgent.ClassifyFollowsRuleTable | itsm_agent/itsm_agent.py:30-36 | classification equals the first-matching rule of the ordered table (password/reset, then can't/error/issue, else general) on the lower-cased text |
| ItsmAgent.ClassifyIgnoresCase | itsm_agent/itsm_agent.py:30 | upper- or lower-casing the message in ASCII never changes its classification |
| ItsmAgent.ResolveUsername | itsm_agent/itsm_agent.py:41 | the user is "unknown" when user_context or its username key is missing, the stored name otherwise, and the lookup faults with AttributeError exactly when user_context holds None |
| ItsmAgent.UnknownUserAsset | itsm_agent/itsm_agent.py:41-43 | a user context without a username key (including the empty one that stands for a missing user context) is charged the asset "LAPTOP-UNKNOWN-001" |
| ItsmAgent.AssetIdRoundTrip | itsm_agent/itsm_agent.py:43 | the asset id recovers the upper-cased user name between "LAPTOP-" and "-001" and holds no lower-case ASCII letter |
| ItsmAgent.Escalate | itsm_agent/itsm_agent.py:46-49 | the flag is true afterwards iff urgency is "high" or it was true before; with any other urgency it is unchanged |
| ItsmAgent.ServiceLinkRoundTrip | itsm_agent/itsm_agent.py:55 | the tracking link gives back the ticket id it was built from |
| ItsmAgent.TicketIdFormat | itsm_agent/itsm_agent.py:54 | with ASCII upper-casing, a ticket id matches `TCKT-[A-Z]{3}-\d+` iff the request type starts with three ASCII letters |
| ItsmAgent.TicketCode | itsm_agent/itsm_agent.py:54 | a type starting with three lower-case letters yields "TCKT-" + those letters upper-cased + "-12345" |
| ItsmAgent.ClassifiedTicket | itsm_agent/itsm_agent.py:51-56 | the ticket of any classified message matches `TCKT-[A-Z]{3}-\d+` and starts TCKT-SER, TCKT-INC or TCKT-GEN exactly for service_request, incident and general |
| ItsmAgent.CommentaryShape | itsm_agent/itsm_agent.py:78-84 | a commentary opens with the task name heading (default "Unknown Task") and contains the summary line (default "") and the details line (default "{}") |
| ItsmAgent.CommentaryTail | itsm_agent/itsm_agent.py:86-89 | a commentary ends with the escalation tail iff the lower-cased details contain "error", and with the normal tail iff they do not |
| ItsmAgent.CommentaryAfter | itsm_agent/itsm_agent.py:74-76 | the commentary changes only for a present non-empty task context, and then becomes that task's commentary |
| ItsmAgent.ReplyShape | itsm_agent/itsm_agent.py:58-65 | every reply ends with the tracking line and its link; it opens "Incident logged: {ticket}" iff incident, "Request submitted: {ticket}" iff service_request, the generic thanks iff neither |
| ItsmAgent.ComposeReply | itsm_agent/itsm_agent.py:58-65 | composing the reply faults with KeyError exactly when ticket_id is missing for an incident or service request, and otherwise yields the reply for the rendered ticket and link |
| ItsmAgent.RunFaults | itsm_agent/itsm_agent.py:29-44 | a run fails iff the history is empty (IndexError) or user_context holds None (AttributeError) |
| ItsmAgent.RunAppendsOneReply | itsm_agent/itsm_agent.py:66 | a successful run appends exactly one message, keeps the earlier ones in order, and the new one is the agent reply for the issued ticket and link |
| ItsmAgent.RunTicketFollowsClassification | itsm_agent/itsm_agent.py:105-111 | within a run the request type is decided from the latest message before the ticket is issued; ticket, link and reply follow from it, and the ticket matches `TCKT-[A-Z]{3}-\d+` |
| ItsmAgent.RunEscalationMonotone | itsm_agent/itsm_agent.py:46-49 | after a run the flag is true iff urgency was "high" or it was already true, and is otherwise unchanged |
| ItsmAgent.RunIgnoresEarlierHistory | itsm_agent/itsm_agent.py:30 | records differing only in history before the latest message get the same type, ticket, link and reply |
| ItsmAgent.RunOtherFields | itsm_agent/itsm_agent.py:40-44 | a run records the stub asset of the resolved user ("LAPTOP-UNKNOWN-001" without user_context), writes the commentary exactly as comment_on_task decides (only for a non-empty task), and leaves urgency, user_context, resolution and the task fields alone |
| ItsmAgent.ItsmState.constructor | itsm_agent/itsm_agent.py:12-24 | a new record holds exactly the given field values |
| ItsmAgent.ItsmState.ClassifyRequest | itsm_agent/itsm_agent.py:29-38 | the node writes only request_type, from the latest message, and raises IndexError on an empty history leaving the record unchanged |
| ItsmAgent.ItsmState.QueryCmdb | itsm_agent/itsm_agent.py:40-44 | the node writes only cmdb_asset, and raises AttributeError leaving the record unchanged when user_context holds None |
| ItsmAgent.ItsmState.CheckSlaAndRoute | itsm_agent/itsm_agent.py:46-49 | the node writes only escalation_flag, and a true flag stays true |
| ItsmAgent.ItsmState.GenerateTicket | itsm_agent/itsm_agent.py:51-56 | the node writes only ticket_id and service_now_link, and the link points back to the ticket |
| ItsmAgent.ItsmState.CommentOnTask | itsm_agent/itsm_agent.py:73-92 | the node writes only agent_commentary, as CommentaryAfter decides |
| ItsmAgent.ItsmState.GenerateResponse | itsm_agent/itsm_agent.py:58-67 | the node only appends the composed reply to messages, and raises KeyError leaving the record unchanged when it cannot compose one |
| ItsmAgent.ItsmState.Invoke | itsm_agent/itsm_agent.py:97-113 | running the nodes in edge order reports the fault of the first node that raises, otherwise succeeds with the record `Run` describes |
| AgentTests.IncidentMessageClassified | tests/test_agent.py:9-20 | "I can't log into my laptop" is an incident |
| AgentTests.ResetMessageClassified | tests/test_agent.py:26-37 | "Please reset my password" is a service request |
| AgentTests.JdoeAsset | itsm_agent/itsm_agent.py:43 | user "jdoe" is charged the asset "LAPTOP-JDOE-001" |
| AgentTests.IncidentClassificationAndTicket | tests/test_agent.py:7-22 | the incident scenario yields type incident, a TCKT-INC ticket, a reply containing "Incident logged", the escalation flag and asset LAPTOP-JDOE-001 |
| AgentTests.ServiceRequestClassification | tests/test_agent.py:24-39 | the reset scenario yields type service_request, a TCKT-SER ticket and a reply containing "Request submitted" |
| AgentTests.TicketIdFormatScenario | tests/test_agent.py:41-54 | the issue scenario yields a ticket id matching `TCKT-[A-Z]{3}-\d+` |
| AgentTests.RepeatedInvocation | itsm_agent/itsm_agent.py:105-113 | two invocations on equal records end in equal records; when they succeed each holds a ticket and one more message |
| AgentTests.TaskChatFaults | app.py:94-108 | the record the task-chat page passes (user_context None, a task selected) always faults with AttributeError at itsm_agent/itsm_agent.py:41, so no commentary is written |

## Left out

- Text.Lower: maps ASCII letters only. Python's `str.lower` also lower-cases other letters (for example 'Ä' to 'ä'), and the model leaves them alone.
- Text.Upper: maps ASCII letters only and keeps the length. Python's `str.upper` also maps other letters and can lengthen a string ('ß' becomes "SS"), and the model leaves them alone.
- Text.LowerOfUpper: holds for the ASCII mapping only. In Python, "ß".upper().lower() is "ss", not "ß".
- ItsmAgent.ClassifyIgnoresCase: holds for ASCII case changes only. Python classifies "reſet" (long s) as general but its upper case "RESET" as service_request, and "ıssue" (dotless i) as general but "ISSUE" as incident.
- ItsmAgent.TicketIdFormat: the "only if" direction rests on ASCII upper-casing. In Python "ſer"[:3].upper() is "SER", so a type whose first letter is 'ſ' still gives a well-formed id.
- The rendering of `full_details` with `str(dict)` is not reproduced. A task context is a map from keys to the text of each value, with "{}" standing for a missing `full_details`.
- `user_context` values are strings. A `username` that holds None or a non-string would fault in `.upper()`, and that case is not representable.
- `request_type` holds one of the four values the workflow produces, `Unset` standing for the empty string callers pass in. An arbitrary caller-supplied type is not representable, which is safe because classification always overwrites it before it is read. `TicketIdFormat` still covers every type string.
- LangGraph itself (`StateGraph`, `compile`, the `add_messages` reducer's merge by message id) is not modelled. The graph is sequential composition of the nodes on one record. After a fault the model's record keeps what the earlier nodes wrote, whereas LangGraph's copy of the input is not modelled.
- The `logger.info` call (itsm_agent/itsm_agent.py:37), logging setup, `.env` loading (itsm_agent/config.py), the Streamlit UI (app.py), the command line (run.py) and the `__main__` demo block are I/O and are left out. `end_node` is never wired into the graph and is left out.
- The emoji in the reply and commentary templates are kept as literal constants. No property depends on them except that they tell the openings apart.
- The asset id need not match `LAPTOP-[A-Z0-9_]+-001`. Any user name is upper-cased and inserted, so an empty or dotted name gives an id outside that pattern. `AssetIdRoundTrip` states what the code does guarantee: no lower-case ASCII letters, and the name recovered between prefix and suffix.
