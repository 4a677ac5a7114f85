/** The axiomatic validator: `src/hpl/axioms/validator.py`. A `ValidationError` carries the location and
    the path of the offending node; the first failing check wins. */
module Validator {
  import opened Text
  import opened Ast

  /** What a failing check checked. */
  datatype Rule =
    | SurfaceSymbol
    | FormNotList | FormEmpty | FormHead | DefinitionLength(word: string) | DefinitionName(word: string)
    | LambdaNotList(what: string) | LambdaLength(what: string) | LambdaHead(what: string)
    | ArgumentsNotList | ArgumentNotSymbol
    | ExpressionEmpty | ExpressionHead | EvolveLength | EvolveTarget | MeasureLength
    | HamiltonianEmpty | TermNotList | TermLength | TermHead | TermOperator | TermCoefficient

  datatype Check = Pass | Fail(rule: Rule, loc: Option<Location>, path: seq<nat>)

  function Message(rule: Rule): string {
    match rule
    case SurfaceSymbol => "Surface symbol found after macro expansion"
    case FormNotList => "Form must be a list"
    case FormEmpty => "Form cannot be empty"
    case FormHead => "Form head must be a symbol"
    case DefinitionLength(word) => word + " form must have 3 elements"
    case DefinitionName(word) => word + " name must be a symbol"
    case LambdaNotList(what) => what + " must be a list"
    case LambdaLength(what) => what + " must have 3 elements"
    case LambdaHead(what) => what + " must start with lambda symbol"
    case ArgumentsNotList => "argument list must be a list"
    case ArgumentNotSymbol => "argument must be a symbol"
    case ExpressionEmpty => "expression cannot be empty list"
    case ExpressionHead => "expression head must be a symbol"
    case HamiltonianEmpty => "hamiltonian must include at least one term"
    case TermNotList => "term must be a list"
    case TermLength => "term must have 3 elements"
    case TermHead => "term must start with 'term'"
    case TermOperator => "operator-ref must be a symbol"
    case TermCoefficient => "coefficient must be a number"
    case EvolveLength => "evolve must have 3 elements"
    case EvolveTarget => "evolve target must be a symbol"
    case MeasureLength => "measure must have 4 elements"
  }

  const LAMBDA_SYMBOL := "?"

  const SURFACE_SYMBOLS := {"defstrategy", "params", "let", "if", ">", "buy", "sell", "signal", "ma-diff", "price",
                            "window", "threshold", "size"}

  function Failed(rule: Rule, node: Node, path: seq<nat>): Check {
    Fail(rule, node.loc, path)
  }

  function ValidateProgram(program: seq<Node>): Check {
    ValidateForms(program, 0)
  }

  function ValidateForms(forms: seq<Node>, index: nat): Check {
    if forms == [] then Pass else
      var surface := RejectSurfaceSymbols(forms[0], [index]);
      if surface.Fail? then surface else
        var form := ValidateForm(forms[0], [index]);
        if form.Fail? then form else ValidateForms(forms[1..], index + 1)
  }

  function RejectSurfaceSymbols(node: Node, path: seq<nat>): Check
    decreases node, 1
  {
    match node
    case Atom(Sym(name), _) =>
      if name in SURFACE_SYMBOLS then Failed(SurfaceSymbol, node, path) else Pass
    case Atom(_, _) => Pass
    case List(items, _) => RejectSurfaceAmong(items, path, 0)
  }

  function RejectSurfaceAmong(items: seq<Node>, path: seq<nat>, index: nat): Check
    decreases items, 0
  {
    if items == [] then Pass else
      var first := RejectSurfaceSymbols(items[0], path + [index]);
      if first.Fail? then first else RejectSurfaceAmong(items[1..], path, index + 1)
  }

  function ValidateForm(node: Node, path: seq<nat>): Check {
    if node.Atom? then Failed(FormNotList, node, path)
    else if node.items == [] then Failed(FormEmpty, node, path)
    else if !node.items[0].IsSymbol() then Failed(FormHead, node.items[0], path + [0])
    else
      var head := node.items[0].value.name;
      if head == "operator" then ValidateOperator(node, path)
      else if head == "invariant" then ValidateNamed("invariant", node, path)
      else if head == "scheduler" then ValidateNamed("scheduler", node, path)
      else if head == "observer" then ValidateNamed("observer", node, path)
      else ValidateExpression(node, path)
  }

  function ValidateOperator(node: Node, path: seq<nat>): Check
    requires node.List?
  {
    var items := node.items;
    if |items| != 3 then Failed(DefinitionLength("operator"), node, path)
    else if !items[1].IsSymbol() then Failed(DefinitionName("operator"), items[1], path + [1])
    else ValidateLambda("operator body", items[2], path + [2])
  }

  /** `_validate_operator_body` and `_validate_handler`. */
  function ValidateLambda(what: string, node: Node, path: seq<nat>): Check
    decreases node, 0
  {
    if node.Atom? then Failed(LambdaNotList(what), node, path)
    else
      var items := node.items;
      if |items| != 3 then Failed(LambdaLength(what), node, path)
      else if !items[0].Is(LAMBDA_SYMBOL) then
        Failed(LambdaHead(what), items[0], path + [0])
      else
        var arguments := ValidateArgList(items[1], path + [1]);
        if arguments.Fail? then arguments else ValidateExpression(items[2], path + [2])
  }

  function ValidateArgList(node: Node, path: seq<nat>): Check {
    if node.Atom? then Failed(ArgumentsNotList, node, path) else ValidateArguments(node.items, path, 0)
  }

  function ValidateArguments(items: seq<Node>, path: seq<nat>, index: nat): Check {
    if items == [] then Pass
    else if !items[0].IsSymbol() then Failed(ArgumentNotSymbol, items[0], path + [index])
    else ValidateArguments(items[1..], path, index + 1)
  }

  /** `_validate_invariant`, `_validate_scheduler` and `_validate_observer`. */
  function ValidateNamed(what: string, node: Node, path: seq<nat>): Check
    requires node.List?
  {
    var items := node.items;
    if |items| != 3 then Failed(DefinitionLength(what), node, path)
    else if !items[1].IsSymbol() then Failed(DefinitionName(what), items[1], path + [1])
    else ValidateExpression(items[2], path + [2])
  }

  function ValidateExpression(node: Node, path: seq<nat>): Check
    decreases node, 3
  {
    if node.Atom? then Pass
    else
      var items := node.items;
      if items == [] then Failed(ExpressionEmpty, node, path)
      else if !items[0].IsSymbol() then Failed(ExpressionHead, items[0], path + [0])
      else if items[0].Is("hamiltonian") then ValidateHamiltonian(node, path)
      else if items[0].Is("evolve") then ValidateEvolve(node, path)
      else if items[0].Is("measure") then ValidateMeasure(node, path)
      else ValidateExpressions(items[1..], path, 1)
  }

  function ValidateExpressions(items: seq<Node>, path: seq<nat>, index: nat): Check
    decreases items, 4
  {
    if items == [] then Pass else
      var first := ValidateExpression(items[0], path + [index]);
      if first.Fail? then first else ValidateExpressions(items[1..], path, index + 1)
  }

  function ValidateHamiltonian(node: Node, path: seq<nat>): Check
    requires node.List?
    decreases node, 2
  {
    if |node.items| < 2 then Failed(HamiltonianEmpty, node, path)
    else ValidateTerms(node.items[1..], path, 1)
  }

  function ValidateTerms(terms: seq<Node>, path: seq<nat>, index: nat): Check {
    if terms == [] then Pass else
      var first := ValidateTerm(terms[0], path + [index]);
      if first.Fail? then first else ValidateTerms(terms[1..], path, index + 1)
  }

  function ValidateTerm(node: Node, path: seq<nat>): Check {
    if node.Atom? then Failed(TermNotList, node, path)
    else
      var items := node.items;
      if |items| != 3 then Failed(TermLength, node, path)
      else if !items[0].Is("term") then Failed(TermHead, items[0], path + [0])
      else if !items[1].IsSymbol() then Failed(TermOperator, items[1], path + [1])
      else if !items[2].IsNumber() then Failed(TermCoefficient, items[2], path + [2])
      else Pass
  }

  function ValidateEvolve(node: Node, path: seq<nat>): Check
    requires node.List?
    decreases node, 2
  {
    var items := node.items;
    if |items| != 3 then Failed(EvolveLength, node, path)
    else if !items[1].IsSymbol() then Failed(EvolveTarget, items[1], path + [1])
    else ValidateExpression(items[2], path + [2])
  }

  function ValidateMeasure(node: Node, path: seq<nat>): Check
    requires node.List?
    decreases node, 2
  {
    var items := node.items;
    if |items| != 4 then Failed(MeasureLength, node, path)
    else
      var first := ValidateExpression(items[1], path + [1]);
      if first.Fail? then first else
        var second := ValidateExpression(items[2], path + [2]);
        if second.Fail? then second else ValidateLambda("handler", items[3], path + [3])
  }
}
