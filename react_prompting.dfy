/**
 * The ReAct demo: the prompt template filled with the question, and the
 * user proxy's termination test.
 */
module ReactPrompting {
  import opened Wrappers
  import opened Text
  import opened ChatMessage

  /** The template text before its one `{input}` field. */
  const TemplateHead :=
    " \n\nAnswer the following questions as best as you can. You have access to search tools provided.\n\n"
    + "Use the following question format:\n\n"
    + "Question: the input question you must answer\n"
    + "Thought: you should always think about what you do \n"
    + "Action: the action to take\n"
    + "Action Input: the input to the action\n"
    + "Observation: the result of the action\n"
    + "...( this process can be repeated multiple times)\n"
    + "Thought: I now know the final answer\n"
    + "Final Answer: the final answer to the original question\n\n"
    + "Begin!\n\n"
    + "Question : "

  /** The template text after the field. */
  const TemplateTail := "\n\n"

  /** A format string as `str.format` parses it: literal text and named replacement fields. */
  datatype Piece = Literal(text: string) | Field(name: string)

  /** The source text of a parsed format string. */
  function Source(pieces: seq<Piece>): string {
    if pieces == [] then ""
    else
      (match pieces[0]
       case Literal(text) => text
       case Field(name) => "{" + name + "}")
      + Source(pieces[1..])
  }

  /** `ReAct_prompt`, parsed. */
  const Template := [Literal(TemplateHead), Field("input"), Literal(TemplateTail)]

  /** `pieces.format(**args)`: literal text is copied, each field is replaced by its argument, a missing one raises `KeyError`. */
  function Format(pieces: seq<Piece>, args: map<string, string>): (r: Result<string, string>)
    ensures r.Err? <==> exists i :: 0 <= i < |pieces| && pieces[i].Field? && pieces[i].name !in args
  {
    if pieces == [] then Ok("")
    else
      var rest := Format(pieces[1..], args);
      assert forall i :: 1 <= i < |pieces| ==> pieces[i] == pieces[1..][i - 1];
      match pieces[0]
      case Literal(text) => if rest.Err? then rest else Ok(text + rest.value)
      case Field(name) =>
        if name !in args then Err("KeyError: " + name)
        else if rest.Err? then rest else Ok(args[name] + rest.value)
  }

  /** Formatting a template with every field bound to its own `{name}` text gives back the template's source. */
  lemma {:induction false} FormatIdentity(pieces: seq<Piece>, args: map<string, string>)
    requires forall i :: 0 <= i < |pieces| && pieces[i].Field? ==>
               pieces[i].name in args && args[pieces[i].name] == "{" + pieces[i].name + "}"
    ensures Format(pieces, args) == Ok(Source(pieces))
  {
    if pieces != [] {
      assert forall i :: 1 <= i < |pieces| ==> pieces[i] == pieces[1..][i - 1];
      FormatIdentity(pieces[1..], args);
    }
  }

  /** `react_prompt_message`: the template with `context['question']`; a missing key raises `KeyError`. */
  function ReactPromptMessage(context: map<string, string>): (r: Result<string, string>)
    ensures r.Err? <==> "question" !in context
  {
    if "question" in context then Format(Template, map["input" := context["question"]])
    else Err("KeyError: 'question'")
  }

  /**
   * The message is the template with the question in place of `{input}`
   * and every other character unchanged, so the question can be read back
   * from between the fixed head and tail.
   */
  lemma PromptLayout(context: map<string, string>)
    requires "question" in context
    ensures ReactPromptMessage(context) == Ok(TemplateHead + context["question"] + TemplateTail)
    ensures var m := ReactPromptMessage(context).value;
            |TemplateHead| + |TemplateTail| <= |m| && m[|TemplateHead|..|m| - |TemplateTail|] == context["question"]
  {
    var q := context["question"];
    FormatOneField(TemplateHead, "input", TemplateTail, q);
    var m := TemplateHead + q + TemplateTail;
    assert m[|TemplateHead|..|m| - |TemplateTail|] == q;
  }

  lemma FormatOneField(head: string, name: string, tail: string, value: string)
    ensures Format([Literal(head), Field(name), Literal(tail)], map[name := value]) == Ok(head + value + tail)
  {
    var pieces := [Literal(head), Field(name), Literal(tail)];
    var args := map[name := value];
    assert pieces[1..][1..][1..] == [];
    assert Format(pieces[1..][1..], args) == Ok(tail + "");
    assert tail + "" == tail;
    assert Format(pieces[1..], args) == Ok(value + tail);
    assert head + (value + tail) == head + value + tail;
  }

  /**
   * The proxy's `is_termination_msg`: the content (empty when missing) is
   * a non-empty string whose text, trailing white space removed, ends
   * with "TERMINATE".
   */
  predicate IsTerminationMsg(c: Content)
    ensures IsTerminationMsg(c) ==> c.Str? && |c.text| >= 9
    ensures c.Str? && EndsWith(c.text, "TERMINATE") ==> IsTerminationMsg(c)
  {
    var content := GetOr(c, "");
    content.Some? && content.value != "" && EndsWith(StripRight(content.value), "TERMINATE")
  }

  /** From offset `k` on, `s` is white space. */
  predicate SpaceFrom(s: string, k: int) {
    forall j :: 0 <= k <= j < |s| ==> IsSpace(s[j])
  }

  /**
   * A message terminates exactly when "TERMINATE" occurs in its text and
   * nothing but white space follows it: a "TERMINATE" followed by any
   * other character, or missing, `None` or empty content, does not end the chat.
   */
  lemma TerminationIff(c: Content)
    ensures IsTerminationMsg(c) <==>
              c.Str? && exists k :: OccursAt(c.text, "TERMINATE", k) && SpaceFrom(c.text, k + 9)
  {
    if c.Str? {
      if IsTerminationMsg(c) {
        TerminalHasMarker(c.text);
      }
      if exists k :: OccursAt(c.text, "TERMINATE", k) && SpaceFrom(c.text, k + 9) {
        var k :| OccursAt(c.text, "TERMINATE", k) && SpaceFrom(c.text, k + 9);
        MarkerIsTerminal(c.text, k);
      }
    }
  }

  lemma TerminalHasMarker(s: string)
    requires IsTerminationMsg(Str(s))
    ensures OccursAt(s, "TERMINATE", |StripRight(s)| - 9) && SpaceFrom(s, |StripRight(s)|)
  {
    var r := StripRight(s);
    var k := |r| - 9;
    assert s[k..k + 9] == r[k..k + 9];
  }

  lemma MarkerIsTerminal(s: string, k: int)
    requires OccursAt(s, "TERMINATE", k) && SpaceFrom(s, k + 9)
    ensures IsTerminationMsg(Str(s))
  {
    var r := StripRight(s);
    assert s[k + 8] == "TERMINATE"[8] == 'E';
    assert !IsSpace(s[k + 8]);
    assert |r| >= k + 9;
    assert !IsSpace(s[|r| - 1]);
    assert |r| == k + 9;
    assert r[|r| - 9..] == s[k..k + 9];
  }
}
