/**
 * The research-scoping graph: `clarify_with_user` either asks a
 * clarifying question or confirms the request, `write_research_brief`
 * turns the conversation into a brief for the supervisor, and the edges
 * START -> clarify_with_user and write_research_brief -> END.
 *
 * The structured answers of the language model are inputs.
 */
module ResearchScope {
  import opened Wrappers
  import opened StateScope

  datatype Node = Start | Clarify | WriteBrief | End

  /** A node's return value: where to go next and what to merge. */
  datatype Command = Command(goto: Node, update: Update)

  /** `Command[Literal["write_research_brief", "__end__"]]` */
  const AnnotatedTargets: set<Node> := {WriteBrief, End}

  /** The graph's static edges. */
  function Edge(n: Node): (next: Option<Node>)
    ensures n == Start ==> next == Some(Clarify)
    ensures n == WriteBrief ==> next == Some(End)
    ensures n == Clarify || n == End ==> next.None?
  {
    match n
    case Start => Some(Clarify)
    case WriteBrief => Some(End)
    case _ => None
  }

  function AIReply(text: string): Update {
    map["messages" := Messages([Message(AI, text)])]
  }

  // ----- clarify_with_user -----

  /**
   * `clarify_with_user` as written: a clarification goes back to START
   * with the question, otherwise on to the brief with the verification.
   */
  function ClarifyAsWritten(response: ClarifyWithUser): (c: Command)
    ensures c.update == AIReply(if response.needClarification then response.question else response.verification)
    ensures c.goto == Start <==> response.needClarification
    ensures c.goto == WriteBrief <==> !response.needClarification
  {
    if response.needClarification then Command(Start, AIReply(response.question))
    else Command(WriteBrief, AIReply(response.verification))
  }

  /** The as-written command for a clarification leaves the targets its own annotation allows. */
  lemma ClarifyLeavesAnnotation(response: ClarifyWithUser)
    requires response.needClarification
    ensures ClarifyAsWritten(response).goto !in AnnotatedTargets
  {
  }

  /**
   * Runs of the as-written graph while the model keeps asking for
   * clarification: START leads back to clarify_with_user, which is asked
   * again about the same conversation with only its own questions added.
   * The result says whether the run has left the clarification cycle.
   */
  function ClarifyCycle(s: AgentState, responses: seq<ClarifyWithUser>): (r: (AgentState, bool))
    ensures s.messages <= r.0.messages
    ensures r.0.researchBreif == s.researchBreif && r.0.supervisorMessages == s.supervisorMessages
    ensures r.0.rawNotes == s.rawNotes && r.0.notes == s.notes && r.0.finalReport == s.finalReport
    decreases |responses|
  {
    if responses == [] then (s, false)
    else
      var c := ClarifyAsWritten(responses[0]);
      assert forall key :: key in c.update ==> !Refused(c.update, key);
      var s' := Merge(s, c.update).value;
      if c.goto == Start && Edge(Start) == Some(Clarify) then ClarifyCycle(s', responses[1..])
      else (s', true)
  }

  /** The questions of a run of clarification answers, as AI messages. */
  function Questions(responses: seq<ClarifyWithUser>): seq<Message> {
    if responses == [] then [] else [Message(AI, responses[0].question)] + Questions(responses[1..])
  }

  /** One pass of the cycle: the question is appended and the command goes back to START. */
  lemma ClarifyPass(s: AgentState, response: ClarifyWithUser)
    requires response.needClarification
    ensures ClarifyAsWritten(response).goto == Start
    ensures Merge(s, ClarifyAsWritten(response).update) == Ok(s.(messages := s.messages + [Message(AI, response.question)]))
  {
    var u := ClarifyAsWritten(response).update;
    assert forall key :: key in u ==> !Refused(u, key);
  }

  /**
   * No bound: for every n, n answers asking for clarification keep the
   * as-written graph cycling, with their n questions appended and nothing else.
   */
  lemma {:induction false} ClarifyNeverEnds(s: AgentState, responses: seq<ClarifyWithUser>)
    requires forall i :: 0 <= i < |responses| ==> responses[i].needClarification
    ensures ClarifyCycle(s, responses) == (s.(messages := s.messages + Questions(responses)), false)
    decreases |responses|
  {
    if responses == [] {
      assert s.messages + [] == s.messages;
    } else {
      ClarifyPass(s, responses[0]);
      var s' := s.(messages := s.messages + [Message(AI, responses[0].question)]);
      ClarifyNeverEnds(s', responses[1..]);
      assert s.messages + [Message(AI, responses[0].question)] + Questions(responses[1..])
          == s.messages + Questions(responses);
    }
  }

  /** What the cycle appends are the model's own questions: no user message comes in. */
  lemma {:induction false} QuestionsAreAI(responses: seq<ClarifyWithUser>)
    ensures |Questions(responses)| == |responses|
    ensures forall i :: 0 <= i < |responses| ==> Questions(responses)[i] == Message(AI, responses[i].question)
  {
    if responses != [] {
      QuestionsAreAI(responses[1..]);
    }
  }

  /** `clarify_with_user` as intended: a clarification ends the run, waiting for the user's answer. */
  function ClarifyNode(response: ClarifyWithUser): (c: Command)
    ensures c.goto in AnnotatedTargets
    ensures c.goto == End <==> response.needClarification
    ensures c.update == AIReply(if response.needClarification then response.question else response.verification)
  {
    if response.needClarification then Command(End, AIReply(response.question))
    else Command(WriteBrief, AIReply(response.verification))
  }

  // ----- write_research_brief -----

  /** The supervisor's opening message: the brief followed by a full stop. */
  function SupervisorBrief(brief: string): Message {
    Message(Human, brief + ".")
  }

  /** `write_research_brief` as written: the brief goes under the key `research_brief`. */
  function WriteBriefAsWritten(response: ResearchQuestion): (u: Update)
    ensures "research_brief" in u && u["research_brief"] == Str(response.researchBrief)
    ensures "supervisor_messages" in u && u["supervisor_messages"] == Messages([SupervisorBrief(response.researchBrief)])
    ensures u.Keys == {"research_brief", "supervisor_messages"}
  {
    map["research_brief" := Str(response.researchBrief),
        "supervisor_messages" := Messages([SupervisorBrief(response.researchBrief)])]
  }

  /** The as-written brief never reaches the state: the declared field keeps its old value. */
  lemma BriefIsDropped(s: AgentState, response: ResearchQuestion)
    ensures Merge(s, WriteBriefAsWritten(response)).Ok?
    ensures Merge(s, WriteBriefAsWritten(response)).value.researchBreif == s.researchBreif
    ensures Merge(s, WriteBriefAsWritten(response)).value.supervisorMessages
            == s.supervisorMessages + [SupervisorBrief(response.researchBrief)]
  {
    var u := WriteBriefAsWritten(response);
    assert forall key :: key in u ==> !Refused(u, key);
  }

  /** `write_research_brief` as intended: the brief under the field the state declares. */
  function WriteBriefNode(response: ResearchQuestion): (u: Update)
    ensures u.Keys == {"research_breif", "supervisor_messages"}
    ensures u["research_breif"] == Str(response.researchBrief)
    ensures u["supervisor_messages"] == Messages([SupervisorBrief(response.researchBrief)])
  {
    map["research_breif" := Str(response.researchBrief),
        "supervisor_messages" := Messages([SupervisorBrief(response.researchBrief)])]
  }

  /** The corrected brief is stored, and the supervisor gets exactly one message: the brief and a full stop. */
  lemma BriefIsStored(s: AgentState, response: ResearchQuestion)
    ensures Merge(s, WriteBriefNode(response)).Ok?
    ensures Merge(s, WriteBriefNode(response)).value.researchBreif == Some(response.researchBrief)
    ensures Merge(s, WriteBriefNode(response)).value.supervisorMessages
            == s.supervisorMessages + [SupervisorBrief(response.researchBrief)]
    ensures Merge(s, WriteBriefNode(response)).value.messages == s.messages
  {
    var u := WriteBriefNode(response);
    assert forall key :: key in u ==> !Refused(u, key);
  }

  // ----- One invocation -----

  /**
   * One invocation of the corrected graph: START, clarify_with_user, then
   * either END or write_research_brief and END. Each node's update is
   * merged as the state schema prescribes.
   */
  function Invoke(input: AgentInputState, clarify: ClarifyWithUser, brief: ResearchQuestion): (r: AgentState)
    ensures input.messages <= r.messages && |r.messages| == |input.messages| + 1
    ensures r.researchBreif.Some? <==> !clarify.needClarification
    ensures r.rawNotes == [] && r.notes == [] && r.finalReport.None?
  {
    var s0 := Initial(input);
    var c := ClarifyNode(clarify);
    var s1 := Merge(s0, c.update);
    assert forall key :: key in c.update ==> !Refused(c.update, key);
    if c.goto == End then s1.value
    else
      var u := WriteBriefNode(brief);
      assert forall key :: key in u ==> !Refused(u, key);
      Merge(s1.value, u).value
  }

  /**
   * A clarification ends the invocation with the question appended and no
   * brief; otherwise the verification is appended, the brief is stored and
   * the supervisor receives it.
   */
  lemma InvokeOutcome(input: AgentInputState, clarify: ClarifyWithUser, brief: ResearchQuestion)
    ensures var r := Invoke(input, clarify, brief);
            (clarify.needClarification ==>
               r.messages == input.messages + [Message(AI, clarify.question)]
               && r.researchBreif.None? && r.supervisorMessages == [])
            && (!clarify.needClarification ==>
               r.messages == input.messages + [Message(AI, clarify.verification)]
               && r.researchBreif == Some(brief.researchBrief)
               && r.supervisorMessages == [SupervisorBrief(brief.researchBrief)])
            && r.rawNotes == [] && r.notes == [] && r.finalReport.None?
  {
    var c := ClarifyNode(clarify);
    assert forall key :: key in c.update ==> !Refused(c.update, key);
    if !clarify.needClarification {
      BriefIsStored(Merge(Initial(input), c.update).value, brief);
    }
  }
}
