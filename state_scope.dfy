/**
 * The state schema of the research-scoping graph: the structured outputs
 * the model is asked for, the graph's input and full state, and the
 * reducers that merge a node's update into the state.
 */
module StateScope {
  import opened Wrappers

  datatype Role = Human | AI
  datatype Message = Message(role: Role, content: string)

  /**
   * `ClarifyWithUser` after validation: `need_clarification` is required,
   * `question` and `verification` default to the empty string.
   */
  datatype ClarifyWithUser = ClarifyWithUser(needClarification: bool, question: string, verification: string)

  /** Validation of the raw structured output into a `ClarifyWithUser`. */
  function ParseClarify(needClarification: Option<bool>, question: Option<string>, verification: Option<string>)
    : (r: Result<ClarifyWithUser, string>)
    ensures r.Ok? <==> needClarification.Some?
    ensures r.Ok? ==> r.value.needClarification == needClarification.value
                      && r.value.question == question.GetOr("")
                      && r.value.verification == verification.GetOr("")
  {
    if needClarification.None? then Err("need_clarification: Field required")
    else Ok(ClarifyWithUser(needClarification.value, question.GetOr(""), verification.GetOr("")))
  }

  /** `ResearchQuestion`: a single required string field. */
  datatype ResearchQuestion = ResearchQuestion(researchBrief: string)

  function ParseResearchQuestion(researchBrief: Option<string>): (r: Result<ResearchQuestion, string>)
    ensures r.Ok? <==> researchBrief.Some?
    ensures r.Ok? ==> r.value.researchBrief == researchBrief.value
  {
    if researchBrief.None? then Err("research_brief: Field required") else Ok(ResearchQuestion(researchBrief.value))
  }

  /** `AgentInputState`: messages only. */
  datatype AgentInputState = AgentInputState(messages: seq<Message>)

  /**
   * `AgentState`. The brief is declared under the name `research_breif`;
   * it and `final_report` are absent until written.
   */
  datatype AgentState = AgentState(
    messages: seq<Message>,
    researchBreif: Option<string>,
    supervisorMessages: seq<Message>,
    rawNotes: seq<string>,
    notes: seq<string>,
    finalReport: Option<string>)

  /** The state keys `AgentState` declares. */
  const DeclaredKeys: set<string> :=
    {"messages", "research_breif", "supervisor_messages", "raw_notes", "notes", "final_report"}

  /** The state a run starts from: the input's messages, empty note lists, nothing else written. */
  function Initial(input: AgentInputState): (s: AgentState)
    ensures s.messages == input.messages
    ensures s.rawNotes == [] && s.notes == [] && s.supervisorMessages == []
    ensures s.researchBreif.None? && s.finalReport.None?
  {
    AgentState(input.messages, None, [], [], [], None)
  }

  /** A value in a node's update dictionary; `Null` is Python's `None`. */
  datatype Value = Messages(msgs: seq<Message>) | Str(text: string) | Strs(texts: seq<string>) | Null

  /** A node's update: state key to value. */
  type Update = map<string, Value>

  /**
   * The values a reducer raises on: `add_messages` cannot turn `None` into
   * a message, and `operator.add` cannot add a string or `None` to a list.
   */
  predicate Raises(update: Update, key: string)
    requires key in update
  {
    (key in {"messages", "supervisor_messages"} && update[key].Null?)
    || (key in {"raw_notes", "notes"} && (update[key].Str? || update[key].Null?))
  }

  /**
   * The values a reducer would store without complaint but that the typed
   * state here cannot hold: messages added to a note list, and a list
   * written to a last-value channel.
   */
  predicate Unrepresentable(update: Update, key: string)
    requires key in update
  {
    (key in {"raw_notes", "notes"} && update[key].Messages?)
    || (key in {"research_breif", "final_report"} && (update[key].Messages? || update[key].Strs?))
  }

  /** The keys whose value the merge refuses, for either reason. */
  predicate Refused(update: Update, key: string)
    requires key in update
  {
    Raises(update, key) || Unrepresentable(update, key)
  }

  /**
   * `add_messages`' coercion of a value to messages: a string, or each
   * string of a list, becomes a human message.
   */
  function AsMessages(v: Value): (r: seq<Message>)
    requires !v.Null?
    ensures v.Messages? ==> r == v.msgs
    ensures v.Str? ==> r == [Message(Human, v.text)]
    ensures v.Strs? ==> |r| == |v.texts| && forall i :: 0 <= i < |r| ==> r[i] == Message(Human, v.texts[i])
  {
    match v
    case Messages(msgs) => msgs
    case Str(text) => [Message(Human, text)]
    case Strs(texts) => seq(|texts|, i requires 0 <= i < |texts| => Message(Human, texts[i]))
  }

  /** `add_messages`, modelled as an append of the coerced messages. */
  function AppendMessages(current: seq<Message>, update: Update, key: string): seq<Message> {
    if key in update && !update[key].Null? then current + AsMessages(update[key]) else current
  }

  /** `operator.add` on a list of strings. */
  function AppendStrs(current: seq<string>, update: Update, key: string): seq<string> {
    if key in update && update[key].Strs? then current + update[key].texts else current
  }

  /** Last-value channel: the update's value replaces the old one; `None` clears it. */
  function LastValue(current: Option<string>, update: Update, key: string): Option<string> {
    if key in update && update[key].Str? then Some(update[key].text)
    else if key in update && update[key].Null? then None
    else current
  }

  /**
   * Merging a node's update into the state: each declared key goes through
   * its reducer, a key the state does not declare is dropped, and a value
   * the reducer raises on (or the typed state cannot hold) is an error.
   */
  function Merge(s: AgentState, update: Update): (r: Result<AgentState, string>)
    ensures r.Err? <==> exists key :: key in update && Refused(update, key)
  {
    if exists key :: key in update && Refused(update, key) then Err("TypeError: invalid update")
    else Ok(AgentState(
      AppendMessages(s.messages, update, "messages"),
      LastValue(s.researchBreif, update, "research_breif"),
      AppendMessages(s.supervisorMessages, update, "supervisor_messages"),
      AppendStrs(s.rawNotes, update, "raw_notes"),
      AppendStrs(s.notes, update, "notes"),
      LastValue(s.finalReport, update, "final_report")))
  }

  /**
   * What each reducer does with an accepted update: a message channel
   * gains the value as messages (a string as one human message), a note
   * list gains the value's strings, and a last-value channel holds the
   * new string, or nothing after `None`; a channel the update does not
   * name is unchanged.
   */
  lemma MergeChannels(s: AgentState, update: Update)
    requires Merge(s, update).Ok?
    ensures var t := Merge(s, update).value;
            ("messages" in update ==> t.messages == s.messages + AsMessages(update["messages"]))
            && ("messages" !in update ==> t.messages == s.messages)
            && ("raw_notes" in update ==> t.rawNotes == s.rawNotes + update["raw_notes"].texts)
            && ("raw_notes" !in update ==> t.rawNotes == s.rawNotes)
            && ("research_breif" in update && update["research_breif"].Str? ==> t.researchBreif == Some(update["research_breif"].text))
            && ("research_breif" in update && update["research_breif"].Null? ==> t.researchBreif.None?)
            && ("research_breif" !in update ==> t.researchBreif == s.researchBreif)
            && ("supervisor_messages" in update ==>
                  t.supervisorMessages == s.supervisorMessages + AsMessages(update["supervisor_messages"]))
            && ("supervisor_messages" !in update ==> t.supervisorMessages == s.supervisorMessages)
            && ("notes" in update ==> t.notes == s.notes + update["notes"].texts)
            && ("notes" !in update ==> t.notes == s.notes)
            && ("final_report" in update && update["final_report"].Str? ==> t.finalReport == Some(update["final_report"].text))
            && ("final_report" in update && update["final_report"].Null? ==> t.finalReport.None?)
            && ("final_report" !in update ==> t.finalReport == s.finalReport)
  {
    if "messages" in update {
      assert !Refused(update, "messages");
    }
    if "supervisor_messages" in update {
      assert !Refused(update, "supervisor_messages");
    }
    if "notes" in update {
      assert !Refused(update, "notes");
    }
    if "raw_notes" in update {
      assert !Refused(update, "raw_notes");
    }
  }

  /** A string written to a message channel arrives as one human message. */
  lemma StringBecomesHumanMessage(s: AgentState, text: string)
    ensures Merge(s, map["messages" := Str(text)]) == Ok(s.(messages := s.messages + [Message(Human, text)]))
  {
    var u := map["messages" := Str(text)];
    assert forall key :: key in u ==> key == "messages";
    assert !Refused(u, "messages");
  }

  /** Adding `None` or a bare string to a note list raises. */
  lemma NoteListRejectsScalars(s: AgentState, text: string)
    ensures Merge(s, map["notes" := Str(text)]).Err?
    ensures Merge(s, map["raw_notes" := Null]).Err?
  {
    assert Refused(map["notes" := Str(text)], "notes");
    assert Refused(map["raw_notes" := Null], "raw_notes");
  }

  /** An update made only of undeclared keys changes nothing. */
  lemma UndeclaredKeysDropped(s: AgentState, update: Update)
    requires forall key :: key in update ==> key !in DeclaredKeys
    ensures Merge(s, update) == Ok(s)
  {
  }

  /**
   * The list channels never lose entries: two successive well-typed
   * updates leave the old list followed by the first update's entries and
   * then the second's, in order.
   */
  lemma ListChannelsAppendInOrder(s: AgentState, u1: Update, u2: Update)
    requires Merge(s, u1).Ok? && Merge(Merge(s, u1).value, u2).Ok?
    ensures var t := Merge(Merge(s, u1).value, u2).value;
            t.messages == s.messages + AppendMessages([], u1, "messages") + AppendMessages([], u2, "messages")
            && t.supervisorMessages == s.supervisorMessages + AppendMessages([], u1, "supervisor_messages")
                                       + AppendMessages([], u2, "supervisor_messages")
            && t.rawNotes == s.rawNotes + AppendStrs([], u1, "raw_notes") + AppendStrs([], u2, "raw_notes")
            && t.notes == s.notes + AppendStrs([], u1, "notes") + AppendStrs([], u2, "notes")
  {
    var m := Merge(s, u1).value;
    AppendTwice(s.messages, u1, u2, "messages");
    AppendTwice(s.supervisorMessages, u1, u2, "supervisor_messages");
    AppendStrsTwice(s.rawNotes, u1, u2, "raw_notes");
    AppendStrsTwice(s.notes, u1, u2, "notes");
  }

  lemma AppendTwice(xs: seq<Message>, u1: Update, u2: Update, key: string)
    ensures AppendMessages(AppendMessages(xs, u1, key), u2, key)
            == xs + AppendMessages([], u1, key) + AppendMessages([], u2, key)
  {
    var m1 := if key in u1 && !u1[key].Null? then AsMessages(u1[key]) else [];
    var m2 := if key in u2 && !u2[key].Null? then AsMessages(u2[key]) else [];
    assert AppendMessages([], u1, key) == m1 by {
      assert [] + m1 == m1;
    }
    assert AppendMessages([], u2, key) == m2 by {
      assert [] + m2 == m2;
    }
    assert AppendMessages(xs, u1, key) == xs + m1;
    assert AppendMessages(xs + m1, u2, key) == xs + m1 + m2;
  }

  lemma AppendStrsTwice(xs: seq<string>, u1: Update, u2: Update, key: string)
    ensures AppendStrs(AppendStrs(xs, u1, key), u2, key)
            == xs + AppendStrs([], u1, key) + AppendStrs([], u2, key)
  {
    if key in u1 && u1[key].Strs? {
      assert [] + u1[key].texts == u1[key].texts;
    }
    if key in u2 && u2[key].Strs? {
      assert [] + u2[key].texts == u2[key].texts;
    }
  }
}
