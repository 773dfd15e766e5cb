/** `evaluateFeel` and `evaluateFeelExpression` (api/src/common/feel.ts): the JSONata
    evaluator is a parameter that may throw, and the model states the defaults for blank
    expressions, the normalisation of results and the wording of re-thrown errors. */
module Feel {
  import opened Wrappers
  import opened Text
  import opened Json

  /** Compiles and evaluates a JSONata expression against a context, or throws. */
  type Evaluator = (string, Json) -> Result<Json, Thrown>

  const EvaluationPrefix := "JSONata evaluation error: "
  const ExpressionPrefix := "JSONata expression evaluation error: "

  /** `evaluateFeel(expression, context)`. */
  function EvaluateFeel(expression: string, context: Json, evaluate: Evaluator): (r: Result<Json, Thrown>)
    ensures IsBlank(expression) ==> r == Ok(context)
    ensures !IsBlank(expression) && evaluate(expression, context).Ok? ==> r == evaluate(expression, context)
    ensures !IsBlank(expression) && evaluate(expression, context).Err? ==>
              r == Err(ErrorOf(EvaluationPrefix + MessageOr(evaluate(expression, context).error)))
  {
    if Trim(expression) == "" then Ok(context)
    else
      match evaluate(expression, context)
      case Ok(v) => Ok(v)
      case Err(e) => Err(ErrorOf(EvaluationPrefix + MessageOr(e)))
  }

  /** The shape `evaluateFeelExpression` gives a result: null for null or undefined, a
      plain object as it is, anything else (a primitive or an array) under `value`. */
  function Normalize(v: Json): (r: Json)
    ensures r.JNull? || r.JObj?
    ensures Nullish(v) ==> r == JNull
    ensures v.JObj? ==> r == v
    ensures !Nullish(v) && !v.JObj? ==> r == JObj(map["value" := v])
  {
    if Nullish(v) then JNull
    else if v.JObj? then v
    else JObj(map["value" := v])
  }

  /** `evaluateFeelExpression(expression, context)`. */
  function EvaluateFeelExpression(expression: string, context: Json, evaluate: Evaluator): (r: Result<Json, Thrown>)
    ensures IsBlank(expression) ==> r == Ok(JNull)
    ensures r.Ok? ==> r.value.JNull? || r.value.JObj?
  {
    if Trim(expression) == "" then Ok(JNull)
    else
      match EvaluateFeel(expression, context, evaluate)
      case Ok(v) => Ok(Normalize(v))
      case Err(e) => Err(ErrorOf(ExpressionPrefix + MessageOr(e)))
  }

  /** What a successful evaluation turns into. */
  lemma ExpressionResult(expression: string, context: Json, evaluate: Evaluator)
    requires !IsBlank(expression) && evaluate(expression, context).Ok?
    ensures EvaluateFeelExpression(expression, context, evaluate) == Ok(Normalize(evaluate(expression, context).value))
  {
  }

  /** A failing evaluator's error comes out with both prefixes, the outer one first. */
  lemma ExpressionErrorMessage(expression: string, context: Json, evaluate: Evaluator)
    requires !IsBlank(expression) && evaluate(expression, context).Err?
    ensures var r := EvaluateFeelExpression(expression, context, evaluate);
            r.Err? && r.error.message
              == Some(ExpressionPrefix + EvaluationPrefix + MessageOr(evaluate(expression, context).error))
  {
    var inner := EvaluationPrefix + MessageOr(evaluate(expression, context).error);
    assert EvaluateFeel(expression, context, evaluate) == Err(ErrorOf(inner));
    assert inner != "" && MessageOr(ErrorOf(inner)) == inner;
    assert ExpressionPrefix + inner == ExpressionPrefix + EvaluationPrefix + MessageOr(evaluate(expression, context).error);
  }

  /** Normalising is idempotent: an already normalised result is returned unchanged. */
  lemma NormalizeIdempotent(v: Json)
    ensures Normalize(Normalize(v)) == Normalize(v)
  {
  }

  /** A wrapped primitive or array is recovered from its `value` member. */
  lemma NormalizeUnwrap(v: Json)
    requires !Nullish(v) && !v.JObj?
    ensures Member(Normalize(v), "value") == v
  {
    assert Normalize(v) == JObj(map["value" := v]);
  }
}
