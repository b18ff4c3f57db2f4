/**
 * The routing and labelling logic of the fintech agents: the kernel agent
 * dispatching on the classifier's label, the loan agent's intent
 * normalisation and eligibility threshold, the keyword labelling of
 * generated insurance claims, and the nearest-neighbour approval vote.
 *
 * Every language-model answer, the predicted probability and the targets
 * of the neighbours found by the vector search are inputs.
 */
module Fintech {
  import opened Wrappers
  import opened Text

  // ----- Loan agent -----

  /** `valid_intents` */
  const ValidIntents: seq<string> :=
    ["DEBTCONSOLIDATION", "EDUCATION", "HOMEIMPROVEMENT", "MEDICAL", "PERSONAL", "VENTURE"]

  /**
   * `extract_intent` on the model's answer: stripped and upper-cased, kept
   * when it is a valid intent, "PERSONAL" otherwise.
   */
  function ExtractIntent(answer: string): (r: string)
    ensures r in ValidIntents
    ensures Upper(Strip(answer)) in ValidIntents ==> r == Upper(Strip(answer))
    ensures Upper(Strip(answer)) !in ValidIntents ==> r == "PERSONAL"
  {
    var intent := Upper(Strip(answer));
    if intent in ValidIntents then intent else "PERSONAL"
  }

  /** An intent answer that is already a valid intent, written in any case and padded with spaces, is kept. */
  lemma ExtractIntentNormalises(answer: string, k: nat)
    requires k < |ValidIntents| && Upper(Strip(answer)) == ValidIntents[k]
    ensures ExtractIntent(answer) == ValidIntents[k]
  {
  }

  /** `PredictiveMLTool.use` on the predicted approval probability. */
  function Eligibility(probability: real): (r: string)
    ensures r == "Eligible" <==> probability > 0.5
    ensures r == "Not Eligible" <==> probability <= 0.5
  {
    if probability > 0.5 then "Eligible" else "Not Eligible"
  }

  /** The loan parameters, `params.get(...)` giving `None` for a missing key. */
  datatype LoanParams = LoanParams(fields: map<string, int>) {
    function Get(key: string): Option<int> {
      if key in fields then Some(fields[key]) else None
    }
  }

  /** The classifier's probability of approval for an intent, an age, an income and an amount. */
  type Predictor = (string, Option<int>, Option<int>, Option<int>) -> real

  /** `LoanAgent.process`: normalise the intent, read the parameters, threshold the prediction. */
  function LoanProcess(intentAnswer: string, params: LoanParams, predict: Predictor): (r: string)
    ensures r == "Eligible" <==>
              predict(ExtractIntent(intentAnswer), params.Get("age"), params.Get("income"), params.Get("loan_amount")) > 0.5
    ensures r in ["Eligible", "Not Eligible"]
  {
    var intent := ExtractIntent(intentAnswer);
    Eligibility(predict(intent, params.Get("age"), params.Get("income"), params.Get("loan_amount")))
  }

  // ----- Insurance agent -----

  /** One row of the vector search result: its target and its query. */
  datatype Neighbour = Neighbour(target: int, query: string)

  function TargetSum(rows: seq<Neighbour>): int {
    if rows == [] then 0 else TargetSum(rows[..|rows| - 1]) + rows[|rows| - 1].target
  }

  /** `results["target"].mean() > 0.5`; the mean of no rows is NaN, which compares false. */
  predicate MeanAboveHalf(rows: seq<Neighbour>) {
    |rows| > 0 && (TargetSum(rows) as real) / (|rows| as real) > 0.5
  }

  /** What the semantic search tool returns: the decision and the neighbours' queries in order. */
  datatype Claim = Claim(decision: string, similarQueries: seq<string>)

  /** `SemanticSearchTool.use` on the rows the search returned. */
  function SemanticDecision(rows: seq<Neighbour>): (r: Claim)
    ensures r.decision == "Approved" <==> MeanAboveHalf(rows)
    ensures r.decision == "Not Approved" <==> !MeanAboveHalf(rows)
    ensures |r.similarQueries| == |rows| && forall i :: 0 <= i < |rows| ==> r.similarQueries[i] == rows[i].query
  {
    Claim(if MeanAboveHalf(rows) then "Approved" else "Not Approved",
          seq(|rows|, i requires 0 <= i < |rows| => rows[i].query))
  }

  /** The number of rows whose target is 1. */
  function Approvals(rows: seq<Neighbour>): nat {
    if rows == [] then 0 else Approvals(rows[..|rows| - 1]) + (if rows[|rows| - 1].target == 1 then 1 else 0)
  }

  lemma {:induction false} SumOfBinaryTargets(rows: seq<Neighbour>)
    requires forall i :: 0 <= i < |rows| ==> rows[i].target in {0, 1}
    ensures TargetSum(rows) == Approvals(rows)
  {
    if rows != [] {
      SumOfBinaryTargets(rows[..|rows| - 1]);
    }
  }

  /**
   * With targets 0 and 1, the claim is approved exactly when strictly more
   * than half of the neighbours were approved claims.
   */
  lemma ApprovedByMajority(rows: seq<Neighbour>)
    requires forall i :: 0 <= i < |rows| ==> rows[i].target in {0, 1}
    ensures SemanticDecision(rows).decision == "Approved" <==> 2 * Approvals(rows) > |rows|
  {
    SumOfBinaryTargets(rows);
    if |rows| > 0 {
      HalfThreshold(TargetSum(rows), |rows|);
    }
  }

  /** A mean above one half, in integers. */
  lemma HalfThreshold(s: int, n: int)
    requires n > 0
    ensures (s as real) / (n as real) > 0.5 <==> 2 * s > n
  {
    var x, y := s as real, n as real;
    var q := x / y;
    assert q * y == x;
    ProductSign(q - 0.5, y);
    assert (q - 0.5) * y == x - 0.5 * y;
  }

  lemma ProductSign(a: real, b: real)
    requires b > 0.0
    ensures a > 0.0 <==> a * b > 0.0
  {
    if a > 0.0 {
      assert a * b > 0.0;
    } else {
      assert (-a) * b >= 0.0;
    }
  }

  // ----- Kernel agent -----

  /** What `process_query` returns: the loan tool's text, or the insurance tool's dictionary. */
  datatype Reply = Text(text: string) | Insurance(claim: Claim)

  const MissingParams := "Error: Loan query requires parameters (age, income, loan_amount)."
  const Unclassified := "Error: Unable to classify query as 'loan' or 'insurance'."

  /**
   * `KernelAgent.process_query`: the classifier's answer, stripped and
   * lower-cased, chooses the agent. A loan query needs non-empty
   * parameters; an insurance query goes to the semantic search.
   */
  function ProcessQuery(labelAnswer: string, params: Option<LoanParams>, intentAnswer: string,
                        predict: Predictor, neighbours: seq<Neighbour>): (r: Reply)
    ensures r.Insurance? ==> r.claim == SemanticDecision(neighbours)
    ensures r.Text? ==> r.text in [MissingParams, Unclassified, "Eligible", "Not Eligible"]
    ensures Lower(Strip(labelAnswer)) == "loan" && params.Some? && params.value.fields != map[] ==>
              r == Text(LoanProcess(intentAnswer, params.value, predict))
  {
    var queryType := Lower(Strip(labelAnswer));
    if queryType == "loan" then
      if params.None? || params.value.fields == map[] then Text(MissingParams)
      else Text(LoanProcess(intentAnswer, params.value, predict))
    else if queryType == "insurance" then Insurance(SemanticDecision(neighbours))
    else Text(Unclassified)
  }

  /**
   * A loan label gives the parameter error exactly when the parameters are
   * missing or empty, and a loan decision exactly when they are given.
   */
  lemma RoutingLoan(labelAnswer: string, params: Option<LoanParams>, intentAnswer: string,
                    predict: Predictor, neighbours: seq<Neighbour>)
    ensures var r := ProcessQuery(labelAnswer, params, intentAnswer, predict, neighbours);
            var kind := Lower(Strip(labelAnswer));
            (r == Text(MissingParams) <==> kind == "loan" && (params.None? || params.value.fields == map[]))
            && (r.Text? && r.text in ["Eligible", "Not Eligible"] <==> kind == "loan" && params.Some? && params.value.fields != map[])
  {
    var r := ProcessQuery(labelAnswer, params, intentAnswer, predict, neighbours);
    var kind := Lower(Strip(labelAnswer));
    if kind != "loan" {
      assert r.Insurance? || r == Text(Unclassified);
      assert |Unclassified| > 12;
    } else if params.None? || params.value.fields == map[] {
      assert r == Text(MissingParams);
      assert |MissingParams| > 12;
    } else {
      assert r == Text(LoanProcess(intentAnswer, params.value, predict));
      assert |MissingParams| > 12;
    }
  }

  /**
   * An insurance label, and only that, gives the insurance decision; any
   * label other than "loan" and "insurance" gives the classification error.
   */
  lemma RoutingOther(labelAnswer: string, params: Option<LoanParams>, intentAnswer: string,
                     predict: Predictor, neighbours: seq<Neighbour>)
    ensures var r := ProcessQuery(labelAnswer, params, intentAnswer, predict, neighbours);
            var kind := Lower(Strip(labelAnswer));
            (r.Insurance? <==> kind == "insurance")
            && (r == Text(Unclassified) <==> kind != "loan" && kind != "insurance")
  {
  }

  /** A loan query without parameters does not consult the loan agent: its intent answer and predictor do not matter. */
  lemma MissingParamsSkipsLoanAgent(labelAnswer: string, params: Option<LoanParams>, intentAnswer: string,
                                    intentAnswer': string, predict: Predictor, predict': Predictor,
                                    neighbours: seq<Neighbour>)
    requires Lower(Strip(labelAnswer)) == "loan"
    requires params.None? || params.value.fields == map[]
    ensures ProcessQuery(labelAnswer, params, intentAnswer, predict, neighbours)
            == ProcessQuery(labelAnswer, params, intentAnswer', predict', neighbours)
  {
  }

  /** An insurance query ignores the loan parameters. */
  lemma InsuranceIgnoresParams(labelAnswer: string, params: Option<LoanParams>, params': Option<LoanParams>,
                               intentAnswer: string, predict: Predictor, neighbours: seq<Neighbour>)
    requires Lower(Strip(labelAnswer)) == "insurance"
    ensures ProcessQuery(labelAnswer, params, intentAnswer, predict, neighbours)
            == ProcessQuery(labelAnswer, params', intentAnswer, predict, neighbours)
            == Insurance(SemanticDecision(neighbours))
  {
  }

  // ----- Demo claim dataset -----

  const RejectionKeywords: seq<string> := ["drunk", "influence", "racing", "uninsured"]

  /** `any(keyword in text for keyword in keywords)` */
  function AnyIn(keywords: seq<string>, text: string): (r: bool)
    ensures r <==> exists i :: 0 <= i < |keywords| && Contains(text, keywords[i])
  {
    if keywords == [] then false
    else
      var rest := AnyIn(keywords[1..], text);
      assert forall i :: 1 <= i < |keywords| ==> keywords[i] == keywords[1..][i - 1];
      Contains(text, keywords[0]) || rest
  }

  /** `assign_target`: 0 when a rejection keyword occurs in the lower-cased query, 1 otherwise. */
  function AssignTarget(query: string): (r: int)
    ensures r == 0 <==> exists i :: 0 <= i < |RejectionKeywords| && Contains(Lower(query), RejectionKeywords[i])
    ensures r == 1 <==> forall i :: 0 <= i < |RejectionKeywords| ==> !Contains(Lower(query), RejectionKeywords[i])
  {
    if AnyIn(RejectionKeywords, Lower(query)) then 0 else 1
  }

  /** The keyword match ignores case: "DRUNK" rejects a claim just as "drunk" does. */
  lemma KeywordInAnyCase(before: string, after: string)
    ensures AssignTarget(before + "DRUNK" + after) == 0
  {
    var q := before + "DRUNK" + after;
    assert Lower(q) == Lower(before) + "drunk" + Lower(after);
    ContainsMiddle(Lower(before), "drunk", Lower(after));
  }

  const BasePrompt := "\nGenerate a detailed query for an auto insurance claim. Include specifics about the incident (e.g., cause of the accident, damages, injuries, type of accident, state where it occurred), the user's situation, and what they're claiming. The query should be realistic and reflect what a user might ask an insurance agent. Output only the query text, nothing else.\n"

  const DenialHint := " Include a reason the claim might be denied (e.g., drunk driving, uninsured vehicle)."

  /** The prompt `generate_query` sends. */
  function Prompt(denied: bool): string {
    if denied then BasePrompt + DenialHint else BasePrompt
  }

  /** One record of the generated dataset. */
  datatype Record = Record(query: string, target: int)

  /**
   * The record of draw i: a claim is meant to be denied when the random
   * draw is below 0.4; the model's answer to the prompt is stripped; a
   * denied claim has target 0, any other the keyword label.
   */
  function RecordFor(i: nat, draw: nat -> real, answer: (nat, string) -> string): Record {
    var denied := draw(i) < 0.4;
    var query := Strip(answer(i, Prompt(denied)));
    Record(query, if !denied then AssignTarget(query) else 0)
  }

  /** Every target is 0 or 1, a denied draw gives 0 whatever the query says, and a 1 means no rejection keyword. */
  lemma RecordTargets(i: nat, draw: nat -> real, answer: (nat, string) -> string)
    ensures RecordFor(i, draw, answer).target in {0, 1}
    ensures draw(i) < 0.4 ==> RecordFor(i, draw, answer).target == 0
    ensures RecordFor(i, draw, answer).target == 1 ==>
              forall k :: 0 <= k < |RejectionKeywords| ==> !Contains(Lower(RecordFor(i, draw, answer).query), RejectionKeywords[k])
  {
  }

  /**
   * The dataset loop: ten draws, each appending its record. `draw(i)` is
   * the i-th `random.random()` and `answer(i, prompt)` the model's i-th answer.
   */
  method GenerateDataset(draw: nat -> real, answer: (nat, string) -> string) returns (dataset: seq<Record>)
    ensures |dataset| == 10
    ensures forall i :: 0 <= i < 10 ==> dataset[i] == RecordFor(i, draw, answer)
  {
    dataset := [];
    for i := 0 to 10
      invariant |dataset| == i
      invariant forall j :: 0 <= j < i ==> dataset[j] == RecordFor(j, draw, answer)
    {
      var denied := draw(i) < 0.4;
      var query := GenerateQuery(denied, i, answer);
      var target := if !denied then AssignTarget(query) else 0;
      assert Record(query, target) == RecordFor(i, draw, answer);
      DatasetStep(dataset, Record(query, target), draw, answer);
      dataset := dataset + [Record(query, target)];
    }
  }

  lemma DatasetStep(dataset: seq<Record>, record: Record, draw: nat -> real, answer: (nat, string) -> string)
    requires forall j :: 0 <= j < |dataset| ==> dataset[j] == RecordFor(j, draw, answer)
    requires record == RecordFor(|dataset|, draw, answer)
    ensures forall j :: 0 <= j < |dataset| + 1 ==> (dataset + [record])[j] == RecordFor(j, draw, answer)
  {
  }

  /** `generate_query`: the base prompt, with the denial hint appended for a denied claim; the answer stripped. */
  method GenerateQuery(denied: bool, i: nat, answer: (nat, string) -> string) returns (query: string)
    ensures query == Strip(answer(i, Prompt(denied)))
  {
    var prompt := BasePrompt;
    if denied {
      prompt := prompt + DenialHint;
    }
    query := Strip(answer(i, prompt));
  }
}
