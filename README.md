# Agentic AI framework demos — the deterministic core, modelled in Dafny

The repository is a collection of demo agents built on LLM SDKs, Gmail,
LangGraph, AutoGen, MLflow and scikit-learn. Around those external calls,
the scripts contain small routines of their own whose behaviour can be
stated exactly. This project models those routines and proves what they
promise:

- **Gmail helpers**: the capped pagination loops of `search_emails`,
  `search_email_conversations` and `get_email_messages`; folder-label
  resolution, which appends to the caller's list in place; MIME body
  extraction; and header and flag derivation in `get_email_message_details`.
- **Course Q&A agent**: the send-to-professor tool, which turns every
  failure into a reply string; `should_continue`; `run_agent`'s handling of
  the message and the attachments; the course data invariants; and the
  `get_course_context` renderer.
- **Fintech agents**: kernel routing on the classifier label, intent
  normalisation, the eligibility threshold, the nearest-neighbour approval
  vote, and the keyword labelling of the generated claim dataset.
- **AutoGen scripts**: the calculator tool, the three termination
  predicates, and the ReAct prompt template.
- **LangGraph research-scoping graph**: the state schema and its reducers,
  the two nodes, and the edges.
- **MLflow demo**: the wrapper agent's `predict` and the exact-match count.
- **Offline RAG app**: the model-availability filter.

Every LLM answer, the Gmail service's responses, the classifier's
probability, the vector search's neighbours, the filesystem, the random
draws and the base64url/UTF-8 decoder are inputs: parameters, functions or
finite sequences.

Module layout: one module per source file, plus `Wrappers` (Option, Result)
and `Text` (the Python `str` operations the scripts use).

## Model

| member | source | states |
|---|---|---|
| GmailSearch.SliceTo | Email-Agent/helper_functions/gmail_search.py:35 | Python slicing `s[:n]`: always a prefix of s, of length min(n, len) for n ≥ 0 and len + n (at least 0) for negative n |
| GmailSearch.SearchResult | Email-Agent/helper_functions/gmail_search.py:35 | the result is a prefix of the in-order concatenation of the pages fetched; with a truthy positive cap it holds at most `max_results` items; with a falsy cap it is the whole concatenation |
| GmailSearch.RequestsUpTo | Email-Agent/helper_functions/gmail_search.py:21-27 | one request per loop iteration made so far |
| GmailSearch.RequestsUpToAt | Email-Agent/helper_functions/gmail_search.py:22-27 | the i-th request sent carries the page token of the previous response (none for the first) and the size computed from the items collected so far |
| GmailSearch.Paginate | Email-Agent/helper_functions/gmail_search.py:18-35 | the `while True` loop, with its extend and break, returns exactly the capped prefix and sends exactly the request sequence of the specification functions |
| GmailSearch.Step | Email-Agent/helper_functions/gmail_search.py:29-33 | one iteration keeps the loop invariant: requests, collected items and the stop flag agree with their specifications |
| GmailSearch.PaginateDone | Email-Agent/helper_functions/gmail_search.py:35 | at the break, truncating by a truthy cap gives the specified result |
| GmailSearch.CallsFromAtMost | Email-Agent/helper_functions/gmail_search.py:32-33 | the loop makes no further call after the first iteration whose stop test holds |
| GmailSearch.CallsFromStops | Email-Agent/helper_functions/gmail_search.py:21-33 | the loop ends, at most one call past the last page; its last iteration meets the stop test and no earlier one does |
| GmailSearch.StopsExactly | Email-Agent/helper_functions/gmail_search.py:32-33 | the loop stops exactly when the response has no truthy `nextPageToken` or the collected count reaches a truthy `max_results`; every earlier iteration had a token and was below the cap |
| GmailSearch.RequestSizesInRange | Email-Agent/helper_functions/gmail_search.py:25 | every page request asks for between 1 and 500 items while the loop continues with a positive cap, and for exactly 500 when the cap is falsy |
| GmailSearch.FalsyCapKeepsEverything | Email-Agent/helper_functions/gmail_search.py:25-35 | with a falsy cap, the loop runs until a response has no token and every page is kept, untruncated |
| GmailSearch.SearchEmails | Email-Agent/helper_functions/gmail_search.py:5-35 | `search_emails` returns the capped prefix of the pages' 'messages' (a page without the key adds nothing), sends the specified requests, and returns at most `max_results` items |
| GmailSearch.SearchEmailConversations | Email-Agent/helper_functions/gmail_search.py:38-68 | the same cap, stop and prefix properties over the 'threads' key |
| GmailFetch.FirstPlainData | Email-Agent/helper_functions/gmail_fetch.py:24-32 | the inner loop's choice: nothing exactly when no subpart is text/plain with data; otherwise the data of such a subpart, the first one |
| GmailFetch.ExtractBody | Email-Agent/helper_functions/gmail_fetch.py:9-48 | the nested loops, with their inner-only `break` and outer `break`, compute the body the specification function `BodyOf` defines |
| GmailFetch.ScanWithoutText | Email-Agent/helper_functions/gmail_fetch.py:21-41 | a parts list with no usable text/plain part, at top level or inside an alternative, leaves the body as it was |
| GmailFetch.PlaceholderWithoutPlainText | Email-Agent/helper_functions/gmail_fetch.py:19-48 | when `parts` exists but holds no text/plain data, the result is '<Text body not available>', even if the payload's own body has data |
| GmailFetch.FirstTopLevelPlainWins | Email-Agent/helper_functions/gmail_fetch.py:34-41 | the first top-level text/plain part with data is decoded, and the scan ends there |
| GmailFetch.ScanAfterLastAlternative | Email-Agent/helper_functions/gmail_fetch.py:22-32 | after the last contributing part, the scan keeps the body it has |
| GmailFetch.ScanReachesAlternative | Email-Agent/helper_functions/gmail_fetch.py:22-32 | the inner `break` exits only the alternative's loop, so the scan goes on and the last alternative with text wins |
| GmailFetch.LastAlternativeWins | Email-Agent/helper_functions/gmail_fetch.py:23-32 | with no top-level text/plain data, the body is the first text/plain subpart of the last multipart/alternative that has one |
| GmailFetch.FirstMatchingLabel | Email-Agent/helper_functions/gmail_fetch.py:72-75 | `next(...)` over the labels: none exactly when no name matches `folder_name` case-insensitively, otherwise the id of the first label that matches |
| GmailFetch.ResolveFolder | Email-Agent/helper_functions/gmail_fetch.py:72-83 | the folder id is the first matching label's id when it is truthy; otherwise `ValueError("Folder '<name>' not found.")` |
| GmailFetch.GetEmailMessages | Email-Agent/helper_functions/gmail_fetch.py:51-105 | an unknown folder raises before any request, leaving the caller's list untouched; a resolved id is appended in place to a non-empty caller list, or else sent in a fresh one-element list; the result is the capped prefix of the 'messages' pages, at most `max_results` long |
| GmailFetch.FirstHeader | Email-Agent/helper_functions/gmail_fetch.py:128-154 | `next(...)` over the headers: none exactly when no header name matches (case-sensitively, or after lower-casing for the subject); otherwise the value of the first header that matches |
| GmailFetch.MessageDetails | Email-Agent/helper_functions/gmail_fetch.py:108-172 | a message without payload fails (None has no `get`); otherwise the subject is the first header named "subject" in any case when non-empty, else the snippet, else 'No subject'; sender, recipients and date are the first header named exactly "From", "To", "Date", else 'No sender', 'No recipients', 'No date'; the snippet defaults to 'No snippet'; `star` holds iff 'STARRED' is among `labelIds`, `label` is their ', '-join, `has_attachments` holds iff some top-level part has a non-empty filename, and `body` is the extracted body |
| GmailFetch.SubjectChoice | Email-Agent/helper_functions/gmail_fetch.py:128-133 | when header i is the first whose lower-cased name is "subject", the subject is its value, or, when that is empty, the snippet, then 'No subject' |
| GmailFetch.FirstExactHeader | Email-Agent/helper_functions/gmail_fetch.py:135-154 | when header i is the first named exactly "From" (or "To", or "Date"), the sender (or recipients, or date) is that header's value; header names are matched case-sensitively here |
| GmailFetch.HeaderDefaults | Email-Agent/helper_functions/gmail_fetch.py:128-154 | with no header whose lower-cased name is "subject", the subject is the snippet, else 'No subject'; with no header named exactly "From", "To" or "Date", the field is 'No sender', 'No recipients' or 'No date' |
| EmailAgent.EmailBodyLayout | Email-Agent/agent.py:45-59 | the body opens with the greeting naming the professor, quotes the question verbatim right after it, and ends with the closing; the "Attached files:" line stands between them iff `attachments_info` is non-empty |
| EmailAgent.ShouldContinue | Email-Agent/agent.py:134-138 | routes to "tools" iff the last message carries a non-empty `tool_calls`, to END otherwise; an empty message list raises |
| EmailAgent.Basenames | Email-Agent/agent.py:169 | one basename per uploaded file, in order |
| EmailAgent.FinalReply | Email-Agent/agent.py:187-192 | the reply is the last message's content, or its string form when it has none; an empty final state raises |
| EmailAgent.UserTextNamesFiles | Email-Agent/agent.py:167-171 | the forwarded message starts with the user's message; it is changed iff files were uploaded, and then it names the basename of every file |
| EmailAgent.Agent.constructor | Email-Agent/agent.py:16 | on import there is no Gmail service and no attachment attribute, and nothing has been sent |
| EmailAgent.Agent.SetGmailService | Email-Agent/agent.py:19-22 | replaces the module's service and changes nothing else |
| EmailAgent.Agent.SendEmailToProfessor | Email-Agent/agent.py:26-77 | without a service, the "not initialized" error and no `send_email` call; otherwise exactly one call, to the professor's address with the course subject, the composed body and the current attachment paths; the reply is the confirmation naming the professor and address, or "❌ Error sending email: " and the exception text; the tool never raises |
| EmailAgent.SendsFor | Email-Agent/agent.py:141-147 | the emails a run's tool calls send: none without a service, otherwise one per call, in order, each the email that call's tool invocation composes |
| EmailAgent.SendsLayout | Email-Agent/agent.py:62-72 | each email of a run goes from the service to the professor's address with the course subject, the body quoting its call's question, and the given attachment paths |
| EmailAgent.RepliesFor | Email-Agent/agent.py:141-147 | the tool node answers each tool call, in order, with that call's tool reply |
| EmailAgent.UploadsTravel | Email-Agent/agent.py:62-72 | every email sent after `run_agent` set the paths carries exactly the uploaded files, or none when there were none |
| EmailAgent.Agent.RunTools | Email-Agent/agent.py:141-147 | the tool node runs `send_email_to_professor` once per tool call, in order: the sends recorded and the replies are those of SendsFor and RepliesFor; service and paths are unchanged |
| EmailAgent.Agent.RunAgent | Email-Agent/agent.py:155-192 | sets `attachment_paths` to the uploaded files, or resets it to None when there are none; runs the graph on the rewritten message; every tool call of the run sends one email to the professor carrying those paths (none without a service); returns the final reply |
| CourseData.BreakdownTotals100 | Email-Agent/course_data.py:40-46 | every grading weight is a percentage, and together they add up to 100 |
| CourseData.AssignmentCountAnnounced | Email-Agent/course_data.py:41-87 | there are exactly 5 assignments, as "Assignments (5 total)" announces |
| CourseData.BandsPartition | Email-Agent/course_data.py:47-58 | bands that descend without gaps from a top value give each score up to the top exactly one band, and higher scores none |
| CourseData.GradingScaleIsPartition | Email-Agent/course_data.py:47-58 | the scale descends from 100 to "Below 60" with no gap and no overlap: each score from 0 to 100 has exactly one letter grade |
| CourseData.ParseNat | Email-Agent/course_data.py:41-45 | a number is read only from a non-empty run of decimal digits |
| CourseData.Bands | Email-Agent/course_data.py:47-58 | the bands of the scale, in its order |
| CourseData.LinesAppend | Email-Agent/course_data.py:158-176 | the lines of two lists, one after the other, are the lines of their concatenation |
| CourseData.LinesSplit | Email-Agent/course_data.py:158-176 | one line per entry, in insertion order: an entry's line stands between the lines of the entries before it and those after it |
| CourseData.PolicyHeadingShape | Email-Agent/course_data.py:176 | a policy heading keeps the key's length; `_` becomes a space, the first letter of each word is upper-cased and the other letters lower-cased |
| CourseData.AppendLines | Email-Agent/course_data.py:158-176 | each `for` loop appends exactly the lines of its entries, in order |
| CourseData.GetCourseContext | Email-Agent/course_data.py:125-178 | the accumulated `context` is the opening followed by the six sections (the specification `Render`) |
| CourseData.AppendGrading | Email-Agent/course_data.py:158-163 | the breakdown and scale loops write the GRADING and GRADING SCALE sections |
| CourseData.AppendCourseWork | Email-Agent/course_data.py:165-169 | the assignment loop and the prerequisites write their two sections |
| CourseData.AppendClosing | Email-Agent/course_data.py:171-176 | the textbook line and the policy loop write the last two sections |
| CourseData.StackLayout | Email-Agent/course_data.py:156-176 | after any prefix, each section's heading and lines stand at that section's offset |
| CourseData.StackFacts | Email-Agent/course_data.py:156-176 | sections with non-empty headings appear at strictly increasing offsets, and the last one runs to the end of the text |
| CourseData.SectionsInOrder | Email-Agent/course_data.py:156-178 | the context holds GRADING, GRADING SCALE, ASSIGNMENTS, PREREQUISITES, TEXTBOOK and POLICIES in that order, each heading directly followed by its lines, with the policies running to the end |
| Fintech.ExtractIntent | fintech-agent-project/fintech_ai_agent.py:174-196 | the intent is always one of the six valid intents: the stripped, upper-cased answer when it is valid, "PERSONAL" otherwise |
| Fintech.ExtractIntentNormalises | fintech-agent-project/fintech_ai_agent.py:195-196 | a valid intent answered in any case and with surrounding spaces is kept |
| Fintech.Eligibility | fintech-agent-project/fintech_ai_agent.py:163-165 | "Eligible" iff the probability is strictly greater than 0.5, "Not Eligible" otherwise |
| Fintech.LoanProcess | fintech-agent-project/fintech_ai_agent.py:198-203 | the loan agent answers "Eligible" iff the predictor, given the normalised intent and the `params.get` values, exceeds 0.5 |
| Fintech.SemanticDecision | fintech-agent-project/fintech_ai_agent.py:321-328 | "Approved" iff the neighbours' mean target exceeds 0.5 (no neighbours: never); the similar queries are the neighbours' queries, in order |
| Fintech.SumOfBinaryTargets | fintech-agent-project/fintech_ai_agent.py:324 | with 0/1 targets, the target sum is the count of approved neighbours |
| Fintech.ApprovedByMajority | fintech-agent-project/fintech_ai_agent.py:324-326 | with 0/1 targets, the claim is approved iff strictly more than half of the neighbours have target 1 |
| Fintech.HalfThreshold | fintech-agent-project/fintech_ai_agent.py:324-326 | a mean above one half, stated in integers |
| Fintech.RoutingLoan | fintech-agent-project/fintech_ai_agent.py:135-142 | the label "loan" gives the parameter error iff `params` is missing or empty, and a loan decision iff it is given |
| Fintech.RoutingOther | fintech-agent-project/fintech_ai_agent.py:131-146 | the stripped, lower-cased label "insurance", and only it, gives the insurance decision; any label other than "loan" and "insurance" gives the classification error |
| Fintech.ProcessQuery | fintech-agent-project/fintech_ai_agent.py:131-146 | an insurance reply is the semantic-search decision on the neighbours; a "loan" label with non-empty parameters gives the loan agent's decision on the intent and those parameters; any text reply is the parameter error, the classification error, "Eligible" or "Not Eligible" (which label gives which: RoutingLoan, RoutingOther) |
| Fintech.MissingParamsSkipsLoanAgent | fintech-agent-project/fintech_ai_agent.py:137-141 | a loan query without parameters does not consult the loan agent: its answer and the predictor do not matter |
| Fintech.InsuranceIgnoresParams | fintech-agent-project/fintech_ai_agent.py:143-144 | an insurance query ignores `params` and returns the semantic search decision |
| Fintech.AnyIn | fintech-agent-project/fintech_ai_agent.py:254 | `any(keyword in text ...)` holds iff some keyword occurs in the text |
| Fintech.AssignTarget | fintech-agent-project/fintech_ai_agent.py:252-254 | 0 iff "drunk", "influence", "racing" or "uninsured" occurs in the lower-cased query, 1 otherwise |
| Fintech.KeywordInAnyCase | fintech-agent-project/fintech_ai_agent.py:254 | the match ignores case: "DRUNK" anywhere rejects a claim |
| Fintech.RecordTargets | fintech-agent-project/fintech_ai_agent.py:262-264 | every target is 0 or 1; a denied draw gives 0 whatever the query says; a 1 means no rejection keyword occurs |
| Fintech.GenerateQuery | fintech-agent-project/fintech_ai_agent.py:239-249 | the prompt is the base prompt, with the denial hint appended for a denied claim; the query is the model's answer, stripped |
| Fintech.GenerateDataset | fintech-agent-project/fintech_ai_agent.py:258-265 | the loop appends exactly ten records, the i-th being the one draw i and answer i determine |
| Calculator.TruncDiv | AutoGen/tool_use_calculator.py:26 | `int(a / b)`: the quotient's magnitude is the quotient of the magnitudes, and it is negative only when exactly one operand is |
| Calculator.TruncDivNonNegative | AutoGen/tool_use_calculator.py:26 | on non-negative operands this is floor division |
| Calculator.TruncDivSigns | AutoGen/tool_use_calculator.py:26 | truncation is symmetric: negating either operand negates the quotient |
| Calculator.Calculate | AutoGen/tool_use_calculator.py:18-28 | "+", "-" and "*" give the exact sum, difference and product; "/" gives the truncated quotient, or ZeroDivisionError when b = 0; any other operator gives `ValueError("Invalid operator")`, and only those do |
| Calculator.ExactDivision | AutoGen/tool_use_calculator.py:25-26 | dividing a multiple of b by b gives back the factor, whatever the signs |
| Calculator.TerminationIff | AutoGen/tool_use_calculator.py:42 | a message is terminal iff its content is present, not None, and contains "TERMINATE" somewhere |
| Calculator.IsTerminationMsg | AutoGen/tool_use_calculator.py:42 | only string content can be terminal, and content starting with "TERMINATE" is (the full iff: TerminationIff) |
| ChatMessage.Get | AutoGen/tool_use_calculator.py:42 | `msg.get('content')` is None iff the content is missing or None |
| ChatMessage.GetOr | AutoGen/react_prompting.py:58 | `msg.get('content', '')` gives the default only for a missing key; a stored None stays None |
| ReactPrompting.Format | AutoGen/react_prompting.py:47 | `str.format` on a parsed template fails iff some field has no argument |
| ReactPrompting.FormatIdentity | AutoGen/react_prompting.py:25-47 | formatting with each field bound to its own `{name}` text gives back the template's source: literal text passes through unchanged |
| ReactPrompting.ReactPromptMessage | AutoGen/react_prompting.py:46-47 | fails (KeyError) iff the context has no 'question' |
| ReactPrompting.PromptLayout | AutoGen/react_prompting.py:25-47 | the message is the template text with `{input}` replaced by the question, and the question reads back from between the two halves |
| ReactPrompting.FormatOneField | AutoGen/react_prompting.py:47 | a template with one field, formatted, is its head, the value and its tail |
| ReactPrompting.TerminationIff | AutoGen/react_prompting.py:58 | terminal iff the content is a string in which "TERMINATE" is followed by nothing but white space; missing, None or empty content, "TERMINATE" in mid-text, or "TERMINATE" followed by other characters are not terminal |
| ReactPrompting.IsTerminationMsg | AutoGen/react_prompting.py:58 | only string content of at least nine characters can be terminal, and content ending in "TERMINATE" is (the full iff: TerminationIff) |
| ReactPrompting.TerminalHasMarker | AutoGen/react_prompting.py:58 | a terminal message has "TERMINATE" right before its trailing white space |
| ReactPrompting.MarkerIsTerminal | AutoGen/react_prompting.py:58 | a "TERMINATE" followed only by white space makes the message terminal |
| AgTermination.IsTerminationMsg | AutoGen/ag.py:45 | content that is missing or None raises TypeError; otherwise terminal iff "FINISH" occurs in it |
| AgTermination.LongerWordTerminates | AutoGen/ag.py:45 | "FINISHED" terminates |
| AgTermination.LowerCaseNeverTerminates | AutoGen/ag.py:45 | the test is case-sensitive: text without upper-case letters, "finish" included, never terminates |
| StateScope.ParseClarify | LangGraph/deep_research_agent_langgraph/src/state_scope.py:50-62 | validation succeeds iff `need_clarification` is given; `question` and `verification` default to "" |
| StateScope.ParseResearchQuestion | LangGraph/deep_research_agent_langgraph/src/state_scope.py:65-69 | the single field `research_brief` is required |
| StateScope.Initial | LangGraph/deep_research_agent_langgraph/src/state_scope.py:20-45 | a run starts from the input's messages (the input declares nothing else), empty `raw_notes`, `notes` and supervisor messages, and no brief or report |
| StateScope.Merge | LangGraph/deep_research_agent_langgraph/src/state_scope.py:25-45 | an update fails iff some key holds a value its reducer raises on (None for `add_messages`; a string or None for `operator.add`) or that the typed state cannot hold; otherwise the list channels append, the plain channels take the last value, and undeclared keys are dropped |
| StateScope.AsMessages | LangGraph/deep_research_agent_langgraph/src/state_scope.py:36 | `add_messages` takes messages as they are and turns a string, or each string of a list, into a human message |
| StateScope.MergeChannels | LangGraph/deep_research_agent_langgraph/src/state_scope.py:25-45 | after an accepted update, `messages` and `supervisor_messages` gain the value as messages, `raw_notes` and `notes` gain the value's strings, and `research_breif` and `final_report` hold the new string, or nothing after None; a channel the update does not name is unchanged |
| StateScope.StringBecomesHumanMessage | LangGraph/deep_research_agent_langgraph/src/state_scope.py:25 | a bare string written to `messages` arrives as one human message appended to the conversation |
| StateScope.NoteListRejectsScalars | LangGraph/deep_research_agent_langgraph/src/state_scope.py:39-42 | adding a bare string or None to `notes` or `raw_notes` raises |
| StateScope.UndeclaredKeysDropped | LangGraph/deep_research_agent_langgraph/src/state_scope.py:25-45 | an update made only of keys the state does not declare changes nothing |
| StateScope.ListChannelsAppendInOrder | LangGraph/deep_research_agent_langgraph/src/state_scope.py:36-42 | `messages`, `supervisor_messages`, `raw_notes` and `notes` never lose entries: two updates leave the old list, then the first update's entries, then the second's |
| StateScope.AppendTwice | LangGraph/deep_research_agent_langgraph/src/state_scope.py:36 | two appends to a message channel are one append of both updates, in order |
| StateScope.AppendStrsTwice | LangGraph/deep_research_agent_langgraph/src/state_scope.py:39-42 | `operator.add` on string lists: two updates append in order |
| ResearchScope.Edge | LangGraph/deep_research_agent_langgraph/src/research_agent_scope.py:103-104 | START leads to clarify_with_user and write_research_brief to END; the nodes routed by Command have no static edge |
| ResearchScope.ClarifyAsWritten | LangGraph/deep_research_agent_langgraph/src/research_agent_scope.py:55-66 | the node goes to START iff clarification is needed, and otherwise to write_research_brief; its update is exactly one AI message holding the question or the verification |
| ResearchScope.ClarifyLeavesAnnotation | LangGraph/deep_research_agent_langgraph/src/research_agent_scope.py:36-58 | the `goto=START` returned is outside the annotated targets {write_research_brief, END} |
| ResearchScope.ClarifyPass | LangGraph/deep_research_agent_langgraph/src/research_agent_scope.py:55-60 | a clarification pass appends the question as an AI message and goes back to START |
| ResearchScope.ClarifyCycle | LangGraph/deep_research_agent_langgraph/src/research_agent_scope.py:58-103 | however many clarification passes run, the conversation only grows and no other state field changes (the unbounded case: ClarifyNeverEnds) |
| ResearchScope.ClarifyNeverEnds | LangGraph/deep_research_agent_langgraph/src/research_agent_scope.py:58-103 | as long as the model asks for clarification, the run re-enters the node with no new user input and never leaves the cycle: the state grows by one AI question per pass |
| ResearchScope.QuestionsAreAI | LangGraph/deep_research_agent_langgraph/src/research_agent_scope.py:59 | the messages a clarification run adds are its questions, one AI message each, in order |
| ResearchScope.ClarifyNode | LangGraph/deep_research_agent_langgraph/src/research_agent_scope.py:36-66 | corrected node: the target is always one of the annotated ones, END iff clarification is needed, with the same one-message update |
| ResearchScope.WriteBriefAsWritten | LangGraph/deep_research_agent_langgraph/src/research_agent_scope.py:87-90 | the update has exactly the keys `research_brief` and `supervisor_messages`; the supervisor gets one human message, the brief followed by "." |
| ResearchScope.BriefIsDropped | LangGraph/deep_research_agent_langgraph/src/research_agent_scope.py:88 | merged into the state, the as-written update leaves the declared `research_breif` unchanged: the brief is lost |
| ResearchScope.WriteBriefNode | LangGraph/deep_research_agent_langgraph/src/research_agent_scope.py:87-90 | corrected update: the brief under the declared key `research_breif`, and the same supervisor message |
| ResearchScope.BriefIsStored | LangGraph/deep_research_agent_langgraph/src/research_agent_scope.py:87-90 | merged into the state, the corrected update stores the brief and appends the supervisor message, leaving the conversation as it was |
| ResearchScope.InvokeOutcome | LangGraph/deep_research_agent_langgraph/src/research_agent_scope.py:94-104 | one run of the corrected graph either ends with the question appended and no brief, or appends the verification, stores the brief and hands it to the supervisor; the notes stay empty and there is no report |
| ResearchScope.Invoke | LangGraph/deep_research_agent_langgraph/src/research_agent_scope.py:94-104 | one run of the corrected graph adds exactly one message to the conversation, stores a brief iff no clarification was needed, and leaves the notes empty and no report (in detail: InvokeOutcome) |
| MlflowBasic.MatchFlags | MLFlow/basic.py:66-69 | `zip` pairs the outputs and truths up to the shorter list; a pair matches iff the two are equal after strip and lower-casing |
| MlflowBasic.CountTrue | MLFlow/basic.py:66-69 | a count of true flags never exceeds the number of flags |
| MlflowBasic.CountTrueAll | MLFlow/basic.py:66-69 | the count equals the number of flags iff every flag is true |
| MlflowBasic.CountTrueNone | MLFlow/basic.py:66-69 | the count is 0 iff no flag is true |
| MlflowBasic.ExactMatches | MLFlow/basic.py:66-69 | the exact-match count lies between 0 and the number of rows of either list |
| MlflowBasic.AllMatchIff | MLFlow/basic.py:66-69 | on equal-length lists, every row matches iff the count is the number of rows |
| MlflowBasic.NoneMatchIff | MLFlow/basic.py:66-69 | on equal-length lists, no row matches iff the count is 0 |
| MlflowBasic.QuestionOf | MLFlow/basic.py:188-191 | dict inputs give `inputs['question']`, or "" when it is missing; other inputs give their string form |
| MlflowBasic.Reply | MLFlow/basic.py:194-199 | every reply starts with "[agent_type] "; a case-insensitive "course" takes precedence over "exam", and otherwise the generic reply is used |
| MlflowBasic.CourseBeforeExam | MLFlow/basic.py:194-197 | a question mentioning "COURSE" and then "exam" gets the course reply |
| MlflowBasic.SimpleAgentWrapper.constructor | MLFlow/basic.py:172-173 | the wrapper keeps the agent type it is given |
| MlflowBasic.SimpleAgentWrapper.Default | MLFlow/basic.py:172-173 | the agent type defaults to "admin" |
| MlflowBasic.SimpleAgentWrapper.Predict | MLFlow/basic.py:175-203 | exactly one response per input row, in row order, each the reply to that row's question |
| ModelHandling.Kept | offline-rag/app/model_handler.py:24-26 | the indices of the usable entries: strictly increasing, each usable, none missing |
| ModelHandling.AvailableIsKept | offline-rag/app/model_handler.py:24-26 | the available names are the names of the usable entries, in catalogue order |
| ModelHandling.AvailabilityFacts | offline-rag/app/model_handler.py:19-26 | over entries with distinct names, a name is listed iff its entry is usable, and no name is listed twice |
| ModelHandling.CatalogueAvailability | offline-rag/app/model_handler.py:19-26 | "Llama 3", "Mistral" and "Gemma" are each listed iff their configured path is set, non-empty and exists; no name is listed twice |
| ModelHandling.ModelHandler.constructor | offline-rag/app/model_handler.py:12-15 | the handler keeps its config, starts with no loaded models, and runs the availability check |
| ModelHandling.ModelHandler.CheckAvailableModels | offline-rag/app/model_handler.py:17-26 | rebuilds `available_models` from empty on every call, in catalogue order, from the usable entries; nothing else changes |

## Left out

- LLM calls (`client.chat.complete`, `llm_with_tools.invoke`, structured outputs, the AutoGen chats): their answers are inputs, such as a label string, a `ClarifyWithUser` record, or a message with or without tool calls. The prompts sent to them, including the classifier's and the intent prompt, are not modelled, except the claim-generation prompt.
- Gmail service calls: a finite sequence of responses. A call past the end gets an empty response without a token, so the loops end. Network errors and the Gmail query syntax are not modelled.
- `send_email` (helper module not part of this model): a recorded call plus an optional exception text. Its own behaviour, and the import at Email-Agent/agent.py:37 that stands outside the `try`, are not modelled.
- base64url and UTF-8 decoding in `_extract_body`: the total function parameter `decode`; its decode errors are not modelled.
- `PredictiveMLTool` and the semantic search: the predicted probability is the `Predictor` parameter, and the neighbours are the rows the search returned. Which column `predict_proba` reports, the embedder, and the k = 5 limit are not modelled.
- ML training, the dataset's CSV output, the LanceDB table and all `print` output: library numerics and I/O.
- Fintech.SemanticDecision: the mean is computed exactly in real arithmetic, not in floating point. `ApprovedByMajority` restates it as an integer count for 0/1 targets.
- Calculator.TruncDiv: `int(a / b)` goes through a float in Python, so for magnitudes beyond 2^53 the source can be off from the exact truncated quotient, and when the quotient is too large for a float `a / b` raises `OverflowError`; the model states the exact quotient in both cases.
- MlflowBasic.ExactMatches: the accuracy `exact_matches / len(eval_data)` and the MLflow logging are not modelled; the count is.
- Case mapping (`lower`, `upper`, `title`) is ASCII-only: non-ASCII letters keep their case.
- ReactPrompting.Format: works on the template as `str.format` parses it (literal text and named fields). The parsing itself, `{{` escapes and format specs are not modelled.
- StateScope.Merge: `add_messages` is modelled as an append; message ids, and replacing a message by id, are not modelled. A list written to `research_breif` or `final_report`, or messages added to a note list, are stored by LangGraph without complaint, but the typed state here cannot hold them, so the merge refuses them with an error the runtime does not raise; values other than messages, strings, string lists and None are not modelled.
- `get_today_str` reads the clock, and `get_buffer_string` only renders prompts: both are left out.
- EmailAgent.Agent.RunAgent: the initial state's `course_context` entry is not modelled, since no node reads it; `create_agent`, the system prompt and the graph runtime are the `invoke` parameter, which also yields the email-tool calls the model makes; the model does not tie the tool replies back into the final messages, and the tool calls are run after the graph returns rather than interleaved with its steps, which changes nothing observable because the tool reads only the service and the paths, which nothing else changes during the run.
- MlflowBasic.QuestionOf: `str()` of a non-dict input is given as its text.
- The filesystem is the predicate `exists_`; config values are strings, and a missing key or empty path is falsy.
- `load_model`, document processing, the Streamlit UI and the other demo scripts contain no logic of their own beyond library calls.
- ResearchScope.ClarifyCycle: the unbounded clarification cycle is stated over any finite sequence of model answers, since a non-terminating run cannot be a total function.
- ResearchScope.ClarifyNeverEnds: the cycle assumes that, after a node returns `Command(goto=START)`, the LangGraph runtime runs START's outgoing edge (line 103) again and so re-enters clarify_with_user; how the runtime really treats a jump to START is not modelled, and the second finding depends on this assumption.
- Non-string message content (lists of parts) in the termination predicates is not modelled.

## Findings

| source | as written | input that shows it | evidently intended | confidence | as-written member | corrected member |
|---|---|---|---|---|---|---|
| LangGraph/deep_research_agent_langgraph/src/research_agent_scope.py:88 | `write_research_brief` returns the brief under the key `research_brief`, but the state declares `research_breif` (state_scope.py:33), so the merge drops it | any brief, e.g. "Compare EV batteries": the state's `research_breif` stays None | the brief is stored in the state field the schema declares | not executed | ResearchScope.BriefIsDropped | ResearchScope.BriefIsStored |
| LangGraph/deep_research_agent_langgraph/src/research_agent_scope.py:58 | when clarification is needed, the node returns `goto=START`, outside its annotated targets; START's only edge (line 103) leads straight back to the node, with no new user input and no bound | a model that answers `need_clarification=True` each time: assuming the runtime follows START's edge after the jump, the run never reaches END, and each pass only adds another question | end the run after asking the question, so the user can answer | not executed | ResearchScope.ClarifyNeverEnds | ResearchScope.InvokeOutcome |
