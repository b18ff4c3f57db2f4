/**
 * The course Q&A agent's own logic: the module-level Gmail service, the
 * send-to-professor tool (which turns every failure into a reply string),
 * the routing after the model's turn, and `run_agent`'s handling of the
 * user's message, the attachment list and the final reply.
 *
 * The language model and the LangGraph runtime are the function parameter
 * `invoke`: for a given initial state, the messages of the final state and
 * the email-tool calls the model asked for on the way, which the tool node
 * runs through `send_email_to_professor`. `send_email` is recorded as a
 * call and its possible exception is the parameter `failure`.
 */
module EmailAgent {
  import opened Wrappers
  import opened Text
  import CourseData

  /** An authenticated Gmail service object; any such object is truthy. */
  datatype Service = Service(account: string)

  /** The arguments of one `send_email` call. */
  datatype SendCall = SendCall(service: Service, to: string, subject: string, body: string,
                               attachmentPaths: Option<seq<string>>)

  const NotInitialized := "Error: Email service not initialized. Please check your Gmail authentication."

  const Subject := "Question about " + CourseData.CourseCode + " - " + CourseData.CourseName

  /** The opening of the body, up to the question. */
  const Greeting := "Dear Professor " + CourseData.Instructor.name + ",\n\nI have a question regarding the course:\n\n"

  const AttachedPrefix := "\nAttached files: "

  const Closing := "\nThank you for your time and assistance.\n\nBest regards,\nA Student"

  const Confirmation := "\U{2705} Email successfully sent to Professor " + CourseData.Instructor.name
                        + " at " + CourseData.Instructor.email

  const ErrorPrefix := "\U{274C} Error sending email: "

  /** The line naming the attachments, present only when the information is non-empty. */
  function AttachmentLine(info: string): string {
    if info != "" then AttachedPrefix + info + "\n" else ""
  }

  /** The email body the tool composes. */
  function EmailBody(question: string, info: string): string {
    Greeting + question + "\n\n" + AttachmentLine(info) + Closing
  }

  /**
   * The body opens with the greeting naming the professor, quotes the
   * question verbatim right after it, and ends with the closing; between
   * the question's blank line and the closing stands the attachment line
   * exactly when attachment information was given.
   */
  lemma EmailBodyLayout(question: string, info: string)
    ensures var body := EmailBody(question, info);
            StartsWith(body, Greeting)
            && |Greeting| + |question| + 2 + |Closing| <= |body|
            && body[|Greeting|..|Greeting| + |question|] == question
            && EndsWith(body, Closing)
            && (body[|Greeting| + |question| + 2..|body| - |Closing|] == "" <==> info == "")
            && (info != "" ==> body[|Greeting| + |question| + 2..|body| - |Closing|] == AttachedPrefix + info + "\n")
  {
    var body := EmailBody(question, info);
    var head := Greeting + question + "\n\n";
    var middle := AttachmentLine(info);
    assert body == head + middle + Closing;
    assert body[..|Greeting|] == Greeting;
    assert body[|Greeting|..|Greeting| + |question|] == question;
    assert body[|body| - |Closing|..] == Closing;
    assert body[|head|..|body| - |Closing|] == middle;
  }

  /** `should_continue`'s answer: the tool node, or the end of the graph. */
  datatype Route = Tools | End

  /** A tool call the model asks for; its arguments are not interpreted. */
  datatype ToolCall = ToolCall(name: string, arguments: string)

  /** A message of the graph state: its `content` and `tool_calls` when it has them, and `str(message)`. */
  datatype AgentMessage = AgentMessage(content: Option<string>, toolCalls: Option<seq<ToolCall>>, text: string)

  /**
   * `should_continue`: the tool node when the last message carries a
   * non-empty list of tool calls, the end otherwise; an empty message list
   * makes `[-1]` raise.
   */
  function ShouldContinue(messages: seq<AgentMessage>): (r: Result<Route, string>)
    ensures r.Err? <==> messages == []
    ensures r == Ok(Tools) <==> messages != [] && messages[|messages| - 1].toolCalls.Some?
                                 && messages[|messages| - 1].toolCalls.value != []
    ensures r == Ok(End) <==> messages != [] && (messages[|messages| - 1].toolCalls.None?
                                 || messages[|messages| - 1].toolCalls.value == [])
  {
    if messages == [] then Err("list index out of range")
    else
      var last := messages[|messages| - 1];
      if last.toolCalls.Some? && last.toolCalls.value != [] then Ok(Tools) else Ok(End)
  }

  /**
   * The messages of the initial state `run_agent` hands to the graph. The
   * state's `course_context` entry is not part of it: no node reads it.
   */
  datatype GraphInput = GraphInput(messages: seq<string>)

  /**
   * One call of the email tool made by the graph's tool node: the
   * arguments the model chose, and the exception `send_email` raised, if any.
   */
  datatype ToolRun = ToolRun(question: string, attachmentsInfo: string, failure: Option<string>)

  /** What a run of the graph yields: the final state's messages, and the tool calls made on the way, in order. */
  datatype GraphRun = GraphRun(messages: seq<AgentMessage>, toolCalls: seq<ToolRun>)

  /** The `send_email` call one tool call makes with the given service and attachment paths. */
  function SendOf(service: Service, call: ToolRun, paths: Option<seq<string>>): SendCall {
    SendCall(service, CourseData.Instructor.email, Subject, EmailBody(call.question, call.attachmentsInfo), paths)
  }

  /**
   * The emails a sequence of tool calls sends: none without a service,
   * otherwise one per call, in order, each to the professor and carrying
   * the given attachment paths.
   */
  function SendsFor(service: Option<Service>, calls: seq<ToolRun>, paths: Option<seq<string>>): (r: seq<SendCall>)
    ensures service.None? ==> r == []
    ensures service.Some? ==> |r| == |calls| && forall i :: 0 <= i < |calls| ==> r[i] == SendOf(service.value, calls[i], paths)
  {
    if service.None? || calls == [] then []
    else SendsFor(service, calls[..|calls| - 1], paths) + [SendOf(service.value, calls[|calls| - 1], paths)]
  }

  /** The tool's reply to one call. */
  function ReplyOf(service: Option<Service>, call: ToolRun): string {
    if service.None? then NotInitialized
    else if call.failure.None? then Confirmation
    else ErrorPrefix + call.failure.value
  }

  /** The tool's replies, one per call, in order. */
  function RepliesFor(service: Option<Service>, calls: seq<ToolRun>): (r: seq<string>)
    ensures |r| == |calls| && forall i :: 0 <= i < |calls| ==> r[i] == ReplyOf(service, calls[i])
  {
    if calls == [] then []
    else RepliesFor(service, calls[..|calls| - 1]) + [ReplyOf(service, calls[|calls| - 1])]
  }

  /** Extending the calls by one extends the sends and the replies by that call's. */
  lemma SendsStep(service: Option<Service>, calls: seq<ToolRun>, i: nat, paths: Option<seq<string>>)
    requires i < |calls|
    ensures SendsFor(service, calls[..i + 1], paths)
            == SendsFor(service, calls[..i], paths) + (if service.None? then [] else [SendOf(service.value, calls[i], paths)])
    ensures RepliesFor(service, calls[..i + 1]) == RepliesFor(service, calls[..i]) + [ReplyOf(service, calls[i])]
  {
    assert calls[..i + 1][..i] == calls[..i];
  }

  /**
   * Every email of a run goes to the professor with the course subject,
   * quotes its call's question in the body, and carries the given paths.
   */
  lemma SendsLayout(service: Service, calls: seq<ToolRun>, paths: Option<seq<string>>, i: nat)
    requires i < |calls|
    ensures var e := SendsFor(Some(service), calls, paths)[i];
            e.service == service && e.to == CourseData.Instructor.email && e.subject == Subject
            && e.body == EmailBody(calls[i].question, calls[i].attachmentsInfo) && e.attachmentPaths == paths
  {
  }

  /**
   * Files uploaded with a message travel with every email the run sends:
   * each carries exactly the uploaded paths; without uploads, none does.
   */
  lemma UploadsTravel(service: Option<Service>, calls: seq<ToolRun>, uploadedFiles: Option<seq<string>>)
    ensures var sends := SendsFor(service, calls, if HasFiles(uploadedFiles) then uploadedFiles else None);
            forall i :: 0 <= i < |sends| ==>
              (HasFiles(uploadedFiles) ==> sends[i].attachmentPaths == uploadedFiles)
              && (!HasFiles(uploadedFiles) ==> sends[i].attachmentPaths.None?)
  {
  }

  /** Python truthiness of the optional file list. */
  predicate HasFiles(files: Option<seq<string>>) {
    files.Some? && files.value != []
  }

  function Basenames(files: seq<string>): (r: seq<string>)
    ensures |r| == |files| && forall i :: 0 <= i < |files| ==> r[i] == Basename(files[i])
  {
    seq(|files|, i requires 0 <= i < |files| => Basename(files[i]))
  }

  const NotePrefix := "\n[Note: User has attached the following files: "

  /** The user's message as `run_agent` passes it on. */
  function UserText(message: string, files: Option<seq<string>>): string {
    if HasFiles(files) then message + NotePrefix + Join(", ", Basenames(files.value)) + "]" else message
  }

  /** The reply `run_agent` extracts from the final state's messages. */
  function FinalReply(messages: seq<AgentMessage>): (r: Result<string, string>)
    ensures r.Err? <==> messages == []
    ensures r.Ok? && messages[|messages| - 1].content.Some? ==> r.value == messages[|messages| - 1].content.value
    ensures r.Ok? && messages[|messages| - 1].content.None? ==> r.value == messages[|messages| - 1].text
  {
    if messages == [] then Err("list index out of range")
    else
      var last := messages[|messages| - 1];
      if last.content.Some? then Ok(last.content.value) else Ok(last.text)
  }

  /** Text found in s is found in any text that ends with s. */
  lemma ContainsAfter(a: string, s: string, sub: string)
    requires Contains(s, sub)
    ensures Contains(a + s, sub)
  {
    ContainsIff(s, sub);
    var k :| OccursAt(s, sub, k);
    assert (a + s)[|a| + k..|a| + k + |sub|] == s[k..k + |sub|];
    assert OccursAt(a + s, sub, |a| + k);
    ContainsIff(a + s, sub);
  }

  /** Every entry of a joined list occurs in the joined text. */
  lemma {:induction false} JoinContains(sep: string, xs: seq<string>, i: nat)
    requires i < |xs|
    ensures Contains(Join(sep, xs), xs[i])
    decreases |xs|
  {
    if |xs| == 1 {
      ContainsMiddle("", xs[0], "");
      assert "" + xs[0] + "" == xs[0];
    } else if i == 0 {
      ContainsMiddle("", xs[0], sep + Join(sep, xs[1..]));
      assert "" + xs[0] + (sep + Join(sep, xs[1..])) == xs[0] + sep + Join(sep, xs[1..]);
    } else {
      JoinContains(sep, xs[1..], i - 1);
      ContainsAfter(xs[0] + sep, Join(sep, xs[1..]), xs[i]);
    }
  }

  /** Text found in s is found in any text that starts with s. */
  lemma ContainsBefore(s: string, z: string, sub: string)
    requires Contains(s, sub)
    ensures Contains(s + z, sub)
  {
    ContainsIff(s, sub);
    var k :| OccursAt(s, sub, k);
    assert (s + z)[k..k + |sub|] == s[k..k + |sub|];
    assert OccursAt(s + z, sub, k);
    ContainsIff(s + z, sub);
  }

  /** The note names the i-th file by its basename. */
  lemma NoteNamesFile(message: string, files: seq<string>, i: nat)
    requires i < |files|
    ensures Contains(message + NotePrefix + Join(", ", Basenames(files)) + "]", Basename(files[i]))
  {
    var joined := Join(", ", Basenames(files));
    JoinContains(", ", Basenames(files), i);
    ContainsAfter(message + NotePrefix, joined, Basename(files[i]));
    ContainsBefore(message + NotePrefix + joined, "]", Basename(files[i]));
  }

  /**
   * The message passed on always starts with the user's message; it is
   * changed exactly when files were uploaded, and then it names the
   * basename of every uploaded file.
   */
  lemma UserTextNamesFiles(message: string, files: Option<seq<string>>)
    ensures StartsWith(UserText(message, files), message)
    ensures UserText(message, files) == message <==> !HasFiles(files)
    ensures HasFiles(files) ==> forall i :: 0 <= i < |files.value| ==>
              Contains(UserText(message, files), Basename(files.value[i]))
  {
    if HasFiles(files) {
      var t := UserText(message, files);
      assert t == message + (NotePrefix + Join(", ", Basenames(files.value)) + "]");
      assert t[..|message|] == message;
      forall i | 0 <= i < |files.value|
        ensures Contains(t, Basename(files.value[i]))
      {
        NoteNamesFile(message, files.value, i);
      }
    }
  }

  /**
   * The agent module's state: the global `gmail_service`, the tool's
   * function attribute `attachment_paths` (absent reads as `None`), and
   * the `send_email` calls made so far.
   */
  class Agent {
    var gmailService: Option<Service>
    var attachmentPaths: Option<seq<string>>
    var sent: seq<SendCall>

    /** The module as imported: no service, no attachment attribute, nothing sent. */
    constructor ()
      ensures gmailService == None && attachmentPaths == None && sent == []
    {
      gmailService := None;
      attachmentPaths := None;
      sent := [];
    }

    /** `set_gmail_service` */
    method SetGmailService(service: Option<Service>)
      modifies this
      ensures gmailService == service
      ensures attachmentPaths == old(attachmentPaths) && sent == old(sent)
    {
      gmailService := service;
    }

    /**
     * `send_email_to_professor`: without a service, the error reply and no
     * call; otherwise one `send_email` call to the professor with the
     * composed body and the current attachment paths, and a reply that is
     * the confirmation, or the error text when the call raised `failure`.
     */
    method SendEmailToProfessor(question: string, attachmentsInfo: string, failure: Option<string>)
      returns (reply: string)
      modifies this
      ensures gmailService == old(gmailService) && attachmentPaths == old(attachmentPaths)
      ensures old(gmailService).None? ==> reply == NotInitialized && sent == old(sent)
      ensures old(gmailService).Some? ==>
                sent == old(sent) + [SendCall(old(gmailService).value, CourseData.Instructor.email, Subject,
                                              EmailBody(question, attachmentsInfo), old(attachmentPaths))]
      ensures old(gmailService).Some? ==>
                reply == if failure.None? then Confirmation else ErrorPrefix + failure.value
    {
      if gmailService.None? {
        return NotInitialized;
      }
      var subject := "Question about " + CourseData.CourseCode + " - " + CourseData.CourseName;
      var body := Greeting + question + "\n\n";
      if attachmentsInfo != "" {
        body := body + ("\nAttached files: " + attachmentsInfo + "\n");
      } else {
        assert body + AttachmentLine(attachmentsInfo) == body;
      }
      body := body + "\nThank you for your time and assistance.\n\nBest regards,\nA Student";
      var paths := attachmentPaths;
      sent := sent + [SendCall(gmailService.value, CourseData.Instructor.email, subject, body, paths)];
      match failure
      case None =>
        reply := "\U{2705} Email successfully sent to Professor " + CourseData.Instructor.name
                 + " at " + CourseData.Instructor.email;
      case Some(e) =>
        reply := "\U{274C} Error sending email: " + e;
    }

    /**
     * The graph's tool node at work: each tool call the model makes runs
     * `send_email_to_professor` once, in order, with whatever attachment
     * paths are set.
     */
    method RunTools(calls: seq<ToolRun>) returns (toolReplies: seq<string>)
      modifies this
      ensures gmailService == old(gmailService) && attachmentPaths == old(attachmentPaths)
      ensures sent == old(sent) + SendsFor(gmailService, calls, attachmentPaths)
      ensures toolReplies == RepliesFor(gmailService, calls)
    {
      toolReplies := [];
      var i := 0;
      while i < |calls|
        invariant 0 <= i <= |calls|
        invariant gmailService == old(gmailService) && attachmentPaths == old(attachmentPaths)
        invariant sent == old(sent) + SendsFor(gmailService, calls[..i], attachmentPaths)
        invariant toolReplies == RepliesFor(gmailService, calls[..i])
      {
        var r := SendEmailToProfessor(calls[i].question, calls[i].attachmentsInfo, calls[i].failure);
        SendsStep(gmailService, calls, i, attachmentPaths);
        toolReplies := toolReplies + [r];
        i := i + 1;
      }
      assert calls[..i] == calls;
    }

    /**
     * `run_agent`: record the uploaded files on the tool (or clear them),
     * pass on the user's message with the note naming the files, and run
     * the graph from that message. Each tool call the model makes during
     * the run goes through `send_email_to_professor`, so it sees the
     * attachment paths just set. The reply is taken from the final state's
     * last message.
     */
    method RunAgent(userMessage: string, uploadedFiles: Option<seq<string>>, invoke: GraphInput -> GraphRun)
      returns (reply: Result<string, string>, input: GraphInput, toolReplies: seq<string>)
      modifies this
      ensures attachmentPaths == if HasFiles(uploadedFiles) then uploadedFiles else None
      ensures gmailService == old(gmailService)
      ensures input == GraphInput([UserText(userMessage, uploadedFiles)])
      ensures sent == old(sent) + SendsFor(gmailService, invoke(input).toolCalls, attachmentPaths)
      ensures toolReplies == RepliesFor(gmailService, invoke(input).toolCalls)
      ensures reply == FinalReply(invoke(input).messages)
    {
      var message := userMessage;
      if uploadedFiles.Some? && uploadedFiles.value != [] {
        attachmentPaths := uploadedFiles;
        var attachmentsInfo := Join(", ", Basenames(uploadedFiles.value));
        message := message + "\n[Note: User has attached the following files: " + attachmentsInfo + "]";
      } else {
        attachmentPaths := None;
      }
      input := GraphInput([message]);
      var run := invoke(input);
      toolReplies := RunTools(run.toolCalls);
      var final := run.messages;
      if final == [] {
        reply := Err("list index out of range");
      } else if final[|final| - 1].content.Some? {
        reply := Ok(final[|final| - 1].content.value);
      } else {
        reply := Ok(final[|final| - 1].text);
      }
    }
  }
}
