/**
 * The deterministic parts of the MLflow evaluation demo: the exact-match
 * count of the basic evaluation and the scripted agent wrapper's replies.
 */
module MlflowBasic {
  import opened Text

  // ----- Exact-match count -----

  /** `s.strip().lower()` */
  function Normalize(s: string): string {
    Lower(Strip(s))
  }

  predicate Matches(output: string, truth: string) {
    Normalize(output) == Normalize(truth)
  }

  /** The generator `o.strip().lower() == t.strip().lower() for o, t in zip(outputs, truths)`. */
  function MatchFlags(outputs: seq<string>, truths: seq<string>): (flags: seq<bool>)
    ensures |flags| == if |outputs| < |truths| then |outputs| else |truths|
    ensures forall i :: 0 <= i < |flags| ==> flags[i] == Matches(outputs[i], truths[i])
  {
    var n := if |outputs| < |truths| then |outputs| else |truths|;
    seq(n, i requires 0 <= i < n => Matches(outputs[i], truths[i]))
  }

  /** `sum` over booleans. */
  function CountTrue(flags: seq<bool>): (n: nat)
    ensures n <= |flags|
  {
    if flags == [] then 0 else (if flags[0] then 1 else 0) + CountTrue(flags[1..])
  }

  lemma {:induction false} CountTrueAll(flags: seq<bool>)
    ensures CountTrue(flags) == |flags| <==> forall i :: 0 <= i < |flags| ==> flags[i]
  {
    if flags != [] {
      CountTrueAll(flags[1..]);
      assert forall i :: 1 <= i < |flags| ==> flags[i] == flags[1..][i - 1];
    }
  }

  lemma {:induction false} CountTrueNone(flags: seq<bool>)
    ensures CountTrue(flags) == 0 <==> forall i :: 0 <= i < |flags| ==> !flags[i]
  {
    if flags != [] {
      CountTrueNone(flags[1..]);
      assert forall i :: 1 <= i < |flags| ==> flags[i] == flags[1..][i - 1];
    }
  }

  /** `exact_matches`: between 0 and the number of compared rows. */
  function ExactMatches(outputs: seq<string>, truths: seq<string>): (n: nat)
    ensures n <= |outputs| && n <= |truths|
  {
    CountTrue(MatchFlags(outputs, truths))
  }

  /** Every row is an exact match exactly when the count reaches the number of rows. */
  lemma AllMatchIff(outputs: seq<string>, truths: seq<string>)
    requires |outputs| == |truths|
    ensures ExactMatches(outputs, truths) == |outputs| <==>
              forall i :: 0 <= i < |outputs| ==> Matches(outputs[i], truths[i])
  {
    CountTrueAll(MatchFlags(outputs, truths));
  }

  /** No row matching gives a count of zero, and conversely. */
  lemma NoneMatchIff(outputs: seq<string>, truths: seq<string>)
    requires |outputs| == |truths|
    ensures ExactMatches(outputs, truths) == 0 <==>
              forall i :: 0 <= i < |outputs| ==> !Matches(outputs[i], truths[i])
  {
    CountTrueNone(MatchFlags(outputs, truths));
  }

  // ----- SimpleAgentWrapper -----

  /** A row's `inputs` cell: a dictionary, or any other value given by its `str()`. */
  datatype Inputs = Dict(fields: map<string, string>) | Other(repr: string)

  /** The question of a row: `inputs.get('question', '')` for a dictionary, `str(inputs)` otherwise. */
  function QuestionOf(inputs: Inputs): (q: string)
    ensures inputs.Dict? && "question" in inputs.fields ==> q == inputs.fields["question"]
    ensures inputs.Dict? && "question" !in inputs.fields ==> q == ""
    ensures inputs.Other? ==> q == inputs.repr
  {
    match inputs
    case Dict(fields) => if "question" in fields then fields["question"] else ""
    case Other(repr) => repr
  }

  const CourseReply := "Based on our records, here's the course info..."
  const ExamReply := "The exam schedule is..."
  const GenericReply := "Let me help you with that."

  /** The scripted reply: "course" wins over "exam", matched case-insensitively; anything else gets the generic reply. */
  function Reply(agentType: string, question: string): (r: string)
    ensures StartsWith(r, "[" + agentType + "] ")
    ensures Contains(Lower(question), "course") ==> r == "[" + agentType + "] " + CourseReply
    ensures !Contains(Lower(question), "course") && Contains(Lower(question), "exam") ==> r == "[" + agentType + "] " + ExamReply
    ensures !Contains(Lower(question), "course") && !Contains(Lower(question), "exam") ==> r == "[" + agentType + "] " + GenericReply
  {
    var prefix := "[" + agentType + "] ";
    var body := if Contains(Lower(question), "course") then CourseReply
                else if Contains(Lower(question), "exam") then ExamReply
                else GenericReply;
    assert (prefix + body)[..|prefix|] == prefix;
    prefix + body
  }

  /** A question naming both the course and the exam gets the course reply, in any letter case. */
  lemma CourseBeforeExam(agentType: string, a: string, b: string, c: string)
    ensures Reply(agentType, a + "COURSE" + b + "exam" + c) == "[" + agentType + "] " + CourseReply
  {
    var q := a + "COURSE" + b + "exam" + c;
    assert Lower(q) == Lower(a) + "course" + (Lower(b) + "exam" + Lower(c));
    ContainsMiddle(Lower(a), "course", Lower(b) + "exam" + Lower(c));
  }

  const DefaultAgentType := "admin"

  class SimpleAgentWrapper {
    var agentType: string

    constructor(agentType: string)
      ensures this.agentType == agentType
    {
      this.agentType := agentType;
    }

    /** `SimpleAgentWrapper()` without an argument. */
    constructor Default()
      ensures agentType == DefaultAgentType
    {
      agentType := DefaultAgentType;
    }

    /** `predict`: one reply per row, in row order. */
    method Predict(rows: seq<Inputs>) returns (responses: seq<string>)
      ensures |responses| == |rows|
      ensures forall i :: 0 <= i < |rows| ==> responses[i] == Reply(agentType, QuestionOf(rows[i]))
    {
      responses := [];
      var k := 0;
      while k < |rows|
        invariant 0 <= k <= |rows|
        invariant |responses| == k
        invariant forall i :: 0 <= i < k ==> responses[i] == Reply(agentType, QuestionOf(rows[i]))
      {
        var question := if rows[k].Dict? then (if "question" in rows[k].fields then rows[k].fields["question"] else "")
                        else rows[k].repr;
        var response;
        if Contains(Lower(question), "course") {
          response := "[" + agentType + "] " + CourseReply;
        } else if Contains(Lower(question), "exam") {
          response := "[" + agentType + "] " + ExamReply;
        } else {
          response := "[" + agentType + "] " + GenericReply;
        }
        responses := responses + [response];
        k := k + 1;
      }
    }
  }
}
