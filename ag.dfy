/** The code-writing demo's termination test. */
module AgTermination {
  import opened Wrappers
  import opened Text
  import opened ChatMessage

  /**
   * `"FINISH" in msg.get("content")`: a substring test on the content;
   * missing or `None` content makes `in` raise `TypeError`.
   */
  function IsTerminationMsg(c: Content): (r: Result<bool, string>)
    ensures r.Err? <==> !c.Str?
    ensures r == Ok(true) <==> c.Str? && exists i :: OccursAt(c.text, "FINISH", i)
  {
    var content := Get(c);
    if content.None? then Err("TypeError: argument of type 'NoneType' is not iterable")
    else
      ContainsIff(content.value, "FINISH");
      Ok(Contains(content.value, "FINISH"))
  }

  /** Any word that merely begins with "FINISH", such as "FINISHED", ends the chat too. */
  lemma LongerWordTerminates(before: string, after: string)
    ensures IsTerminationMsg(Str(before + "FINISHED" + after)) == Ok(true)
  {
    var s := before + "FINISHED" + after;
    assert s == before + "FINISH" + ("ED" + after);
    ContainsMiddle(before, "FINISH", "ED" + after);
  }

  /** The test is case-sensitive: a text without upper-case letters, "finish" included, never ends the chat. */
  lemma LowerCaseNeverTerminates(s: string)
    requires forall i :: 0 <= i < |s| ==> !IsUpperAscii(s[i])
    ensures IsTerminationMsg(Str(s)) == Ok(false)
  {
    if exists i :: OccursAt(s, "FINISH", i) {
      var i :| OccursAt(s, "FINISH", i);
      assert s[i] == "FINISH"[0];
    }
  }
}
