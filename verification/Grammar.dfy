/** The grammar of the axiomatic core language, `docs/spec/02_bnf.md`, as the validator reads it: the words
    `hamiltonian`, `evolve` and `measure` are reserved wherever an expression stands, the definition words at
    the head of a form, and an atom is an expression. */
module Grammar {
  import opened Text
  import opened Ast
  import opened Validator

  /** A symbol of the surface language. */
  predicate IsSurfaceSymbol(node: Node) {
    node.Atom? && node.value.Sym?
    && node.value.name in {"defstrategy", "params", "let", "if", ">", "buy", "sell", "signal", "ma-diff", "price",
                           "window", "threshold", "size"}
  }

  predicate IsName(node: Node) {
    node.Atom? && node.value.Sym?
  }

  predicate IsWord(node: Node, word: string) {
    node.Atom? && node.value == Sym(word)
  }

  predicate IsCoefficient(node: Node) {
    node.Atom? && (node.value.Int? || node.value.Flt?)
  }

  ghost predicate SurfaceFree(nodes: seq<Node>) {
    forall n :: n in nodes ==> !IsSurfaceSymbol(n)
  }

  lemma SurfaceFreeAppend(a: seq<Node>, b: seq<Node>)
    ensures SurfaceFree(a + b) <==> SurfaceFree(a) && SurfaceFree(b)
  {
    assert (forall n :: n in a ==> n in a + b) && (forall n :: n in b ==> n in a + b);
  }

  predicate IsTerm(node: Node) {
    && node.List? && |node.items| == 3
    && IsWord(node.items[0], "term") && IsName(node.items[1]) && IsCoefficient(node.items[2])
  }

  predicate IsArgList(node: Node) {
    node.List? && forall i :: 0 <= i < |node.items| ==> IsName(node.items[i])
  }

  /** A list headed by a symbol. */
  predicate IsHeaded(node: Node) {
    node.List? && node.items != [] && IsName(node.items[0])
  }

  predicate IsExpression(node: Node)
    decreases node, 1
  {
    node.List? ==>
      && IsHeaded(node)
      && match node.items[0].value.name
         case "hamiltonian" => |node.items| >= 2 && forall i :: 1 <= i < |node.items| ==> IsTerm(node.items[i])
         case "evolve" => |node.items| == 3 && IsName(node.items[1]) && IsExpression(node.items[2])
         case "measure" =>
           |node.items| == 4 && IsExpression(node.items[1]) && IsExpression(node.items[2]) && IsLambda(node.items[3])
         case _ => forall i :: 1 <= i < |node.items| ==> IsExpression(node.items[i])
  }

  /** An operator body or a measurement handler. */
  predicate IsLambda(node: Node)
    decreases node, 0
  {
    && node.List? && |node.items| == 3
    && IsWord(node.items[0], "?") && IsArgList(node.items[1]) && IsExpression(node.items[2])
  }

  const DEFINITIONS := {"operator", "invariant", "scheduler", "observer"}

  predicate IsForm(node: Node) {
    && IsHeaded(node)
    && var word := node.items[0].value.name;
       if word in DEFINITIONS then
         && |node.items| == 3 && IsName(node.items[1])
         && if word == "operator" then IsLambda(node.items[2]) else IsExpression(node.items[2])
       else IsExpression(node)
  }

  /** Only axiomatic forms, and no surface symbol anywhere. */
  ghost predicate IsAxiomatic(program: seq<Node>) {
    && SurfaceFree(Preorder(program))
    && forall i :: 0 <= i < |program| ==> IsForm(program[i])
  }

  // ----- where a failure points

  function NodeAt(node: Node, path: seq<nat>): Option<Node> {
    if path == [] then Some(node)
    else if node.Atom? || path[0] >= |node.items| then None
    else NodeAt(node.items[path[0]], path[1..])
  }

  /** What is wrong with the node a rule is broken at. */
  predicate Breaks(rule: Rule, node: Node) {
    match rule
    case SurfaceSymbol => IsSurfaceSymbol(node)
    case FormNotList => node.Atom?
    case FormEmpty => node.List? && node.items == []
    case FormHead => !IsName(node)
    case DefinitionLength(word) => IsHeaded(node) && IsWord(node.items[0], word) && |node.items| != 3
    case DefinitionName(_) => !IsName(node)
    case LambdaNotList(_) => node.Atom?
    case LambdaLength(_) => node.List? && |node.items| != 3
    case LambdaHead(_) => !IsWord(node, "?")
    case ArgumentsNotList => node.Atom?
    case ArgumentNotSymbol => !IsName(node)
    case ExpressionEmpty => node.List? && node.items == []
    case ExpressionHead => !IsName(node)
    case HamiltonianEmpty => IsHeaded(node) && IsWord(node.items[0], "hamiltonian") && |node.items| < 2
    case TermNotList => node.Atom?
    case TermLength => node.List? && |node.items| != 3
    case TermHead => !IsWord(node, "term")
    case TermOperator => !IsName(node)
    case TermCoefficient => !IsCoefficient(node)
    case EvolveLength => IsHeaded(node) && IsWord(node.items[0], "evolve") && |node.items| != 3
    case EvolveTarget => !IsName(node)
    case MeasureLength => IsHeaded(node) && IsWord(node.items[0], "measure") && |node.items| != 4
  }

  /** The path of a failure goes through this one, and on to a node that breaks the rule and has the failure's
      location. */
  ghost predicate Points(c: Check, node: Node, path: seq<nat>) {
    c.Fail? ==>
      && path <= c.path
      && NodeAt(node, c.path[|path|..]).Some?
      && var culprit := NodeAt(node, c.path[|path|..]).value;
         culprit.loc == c.loc && Breaks(c.rule, culprit)
  }

  lemma PointsDeeper(c: Check, node: Node, path: seq<nat>, i: nat)
    requires node.List? && i < |node.items| && Points(c, node.items[i], path + [i])
    ensures Points(c, node, path)
  {
    if c.Fail? {
      var rest := c.path[|path|..];
      assert rest[0] == i && rest[1..] == c.path[|path + [i]|..];
    }
  }

  lemma PointsHere(rule: Rule, node: Node, path: seq<nat>)
    ensures Breaks(rule, node) ==> Points(Failed(rule, node, path), node, path)
  {
    assert path[|path|..] == [];
  }

  lemma PointsAtItem(rule: Rule, node: Node, path: seq<nat>, i: nat)
    requires node.List? && i < |node.items|
    ensures Breaks(rule, node.items[i]) ==> Points(Failed(rule, node.items[i], path + [i]), node, path)
  {
    PointsHere(rule, node.items[i], path + [i]);
    if Breaks(rule, node.items[i]) { PointsDeeper(Failed(rule, node.items[i], path + [i]), node, path, i); }
  }

  /** A check of `node` passes exactly if `good`, and a failure points at a node below. */
  ghost predicate Decides(c: Check, good: bool, node: Node, path: seq<nat>) {
    (c.Pass? <==> good) && Points(c, node, path)
  }

  /** One check after the other. */
  lemma DecidesBoth(first: Check, rest: Check, good: bool, others: bool, node: Node, path: seq<nat>)
    requires Decides(first, good, node, path) && Decides(rest, others, node, path)
    ensures Decides(if first.Fail? then first else rest, good && others, node, path)
  {}

  ghost predicate TermsFrom(node: Node, index: nat)
    requires node.List?
  {
    forall i :: index <= i < |node.items| ==> IsTerm(node.items[i])
  }

  ghost predicate NamesFrom(node: Node, index: nat)
    requires node.List?
  {
    forall i :: index <= i < |node.items| ==> IsName(node.items[i])
  }

  ghost predicate ExpressionsFrom(node: Node, index: nat)
    requires node.List?
  {
    forall i :: index <= i < |node.items| ==> IsExpression(node.items[i])
  }

  ghost predicate FormsFrom(program: seq<Node>, index: nat) {
    forall i :: index <= i < |program| ==> IsForm(program[i])
  }

  // ----- the validator decides the grammar

  lemma {:induction false} SurfaceChecked(node: Node, path: seq<nat>)
    ensures Decides(RejectSurfaceSymbols(node, path), SurfaceFree(PreorderOf(node)), node, path)
    decreases node, 1, 0
  {
    PointsHere(SurfaceSymbol, node, path);
    if node.List? {
      SurfaceAmongChecked(node, path, 0);
      assert node.items[0..] == node.items;
      SurfaceFreeAppend([node], Preorder(node.items));
      assert !IsSurfaceSymbol(node) && PreorderOf(node) == [node] + Preorder(node.items);
    } else {
      assert PreorderOf(node) == [node] && node in [node];
    }
  }

  lemma {:induction false} SurfaceAmongChecked(node: Node, path: seq<nat>, index: nat)
    requires node.List? && index <= |node.items|
    ensures Decides(RejectSurfaceAmong(node.items[index..], path, index),
                    SurfaceFree(Preorder(node.items[index..])), node, path)
    decreases node, 0, |node.items| - index
  {
    if index < |node.items| {
      var first := RejectSurfaceSymbols(node.items[index], path + [index]);
      SurfaceChecked(node.items[index], path + [index]);
      PointsDeeper(first, node, path, index);
      SurfaceAmongChecked(node, path, index + 1);
      SurfaceFreeAppend(PreorderOf(node.items[index]), Preorder(node.items[index + 1..]));
      assert node.items[index..][1..] == node.items[index + 1..];
    }
  }

  lemma TermChecked(node: Node, path: seq<nat>)
    ensures Decides(ValidateTerm(node, path), IsTerm(node), node, path)
  {
    var c := ValidateTerm(node, path);
    if c.Fail? {
      PointsHere(c.rule, node, path);
      if node.List? && |node.items| == 3 {
        PointsAtItem(c.rule, node, path, 0);
        PointsAtItem(c.rule, node, path, 1);
        PointsAtItem(c.rule, node, path, 2);
      }
    }
  }

  lemma {:induction false} TermsChecked(node: Node, path: seq<nat>, index: nat)
    requires node.List? && index <= |node.items|
    ensures Decides(ValidateTerms(node.items[index..], path, index), TermsFrom(node, index), node, path)
    decreases |node.items| - index
  {
    if index < |node.items| {
      var first := ValidateTerm(node.items[index], path + [index]);
      TermChecked(node.items[index], path + [index]);
      PointsDeeper(first, node, path, index);
      TermsChecked(node, path, index + 1);
      assert node.items[index..][1..] == node.items[index + 1..];
      DecidesBoth(first, ValidateTerms(node.items[index + 1..], path, index + 1), IsTerm(node.items[index]),
                  TermsFrom(node, index + 1), node, path);
    }
  }

  lemma {:induction false} ArgumentsChecked(node: Node, path: seq<nat>, index: nat)
    requires node.List? && index <= |node.items|
    ensures Decides(ValidateArguments(node.items[index..], path, index), NamesFrom(node, index), node, path)
    decreases |node.items| - index
  {
    if index < |node.items| {
      var item := node.items[index];
      var first := if item.IsSymbol() then Pass else Failed(ArgumentNotSymbol, item, path + [index]);
      PointsAtItem(ArgumentNotSymbol, node, path, index);
      ArgumentsChecked(node, path, index + 1);
      assert node.items[index..][1..] == node.items[index + 1..];
      DecidesBoth(first, ValidateArguments(node.items[index + 1..], path, index + 1), IsName(item),
                  NamesFrom(node, index + 1), node, path);
    }
  }

  lemma ArgListChecked(node: Node, path: seq<nat>)
    ensures Decides(ValidateArgList(node, path), IsArgList(node), node, path)
  {
    PointsHere(ArgumentsNotList, node, path);
    if node.List? { ArgumentsChecked(node, path, 0); }
  }

  lemma {:induction false} LambdaChecked(what: string, node: Node, path: seq<nat>)
    ensures Decides(ValidateLambda(what, node, path), IsLambda(node), node, path)
    decreases node, 0, 0
  {
    var c := ValidateLambda(what, node, path);
    if c.Fail? { PointsHere(c.rule, node, path); }
    if node.List? && |node.items| == 3 {
      PointsAtItem(LambdaHead(what), node, path, 0);
      ArgListChecked(node.items[1], path + [1]);
      PointsDeeper(ValidateArgList(node.items[1], path + [1]), node, path, 1);
      ExpressionChecked(node.items[2], path + [2]);
      PointsDeeper(ValidateExpression(node.items[2], path + [2]), node, path, 2);
    }
  }

  lemma {:induction false} ExpressionChecked(node: Node, path: seq<nat>)
    ensures Decides(ValidateExpression(node, path), IsExpression(node), node, path)
    decreases node, 1, 0
  {
    var c := ValidateExpression(node, path);
    if c.Fail? { PointsHere(c.rule, node, path); }
    if node.List? && node.items != [] {
      if !node.items[0].IsSymbol() {
        PointsAtItem(ExpressionHead, node, path, 0);
      } else {
        match node.items[0].value.name {
          case "hamiltonian" => TermsChecked(node, path, 1);
          case "evolve" => EvolveChecked(node, path);
          case "measure" => MeasureChecked(node, path);
          case _ => ExpressionsChecked(node, path, 1);
        }
      }
    }
  }

  lemma {:induction false} EvolveChecked(node: Node, path: seq<nat>)
    requires IsHeaded(node) && node.items[0].Is("evolve")
    ensures Decides(ValidateEvolve(node, path), IsExpression(node), node, path)
    decreases node, 0, 0
  {
    PointsHere(EvolveLength, node, path);
    if |node.items| == 3 {
      PointsAtItem(EvolveTarget, node, path, 1);
      ExpressionChecked(node.items[2], path + [2]);
      PointsDeeper(ValidateExpression(node.items[2], path + [2]), node, path, 2);
    }
  }

  lemma {:induction false} MeasureChecked(node: Node, path: seq<nat>)
    requires IsHeaded(node) && node.items[0].Is("measure")
    ensures Decides(ValidateMeasure(node, path), IsExpression(node), node, path)
    decreases node, 0, 0
  {
    PointsHere(MeasureLength, node, path);
    if |node.items| == 4 {
      ExpressionChecked(node.items[1], path + [1]);
      PointsDeeper(ValidateExpression(node.items[1], path + [1]), node, path, 1);
      ExpressionChecked(node.items[2], path + [2]);
      PointsDeeper(ValidateExpression(node.items[2], path + [2]), node, path, 2);
      LambdaChecked("handler", node.items[3], path + [3]);
      PointsDeeper(ValidateLambda("handler", node.items[3], path + [3]), node, path, 3);
    }
  }

  lemma {:induction false} ExpressionsChecked(node: Node, path: seq<nat>, index: nat)
    requires node.List? && index <= |node.items|
    ensures Decides(ValidateExpressions(node.items[index..], path, index), ExpressionsFrom(node, index), node, path)
    decreases node, 0, |node.items| - index
  {
    if index < |node.items| {
      var first := ValidateExpression(node.items[index], path + [index]);
      ExpressionChecked(node.items[index], path + [index]);
      PointsDeeper(first, node, path, index);
      ExpressionsChecked(node, path, index + 1);
      assert node.items[index..][1..] == node.items[index + 1..];
      DecidesBoth(first, ValidateExpressions(node.items[index + 1..], path, index + 1),
                  IsExpression(node.items[index]), ExpressionsFrom(node, index + 1), node, path);
    }
  }

  lemma DefinitionChecked(node: Node, path: seq<nat>)
    requires IsHeaded(node) && node.items[0].value.name in DEFINITIONS
    ensures Decides(ValidateForm(node, path), IsForm(node), node, path)
  {
    var c := ValidateForm(node, path);
    PointsHere(if c.Fail? then c.rule else FormEmpty, node, path);
    if |node.items| == 3 {
      PointsAtItem(if c.Fail? then c.rule else FormEmpty, node, path, 1);
      LambdaChecked("operator body", node.items[2], path + [2]);
      PointsDeeper(ValidateLambda("operator body", node.items[2], path + [2]), node, path, 2);
      ExpressionChecked(node.items[2], path + [2]);
      PointsDeeper(ValidateExpression(node.items[2], path + [2]), node, path, 2);
    }
  }

  lemma FormChecked(node: Node, path: seq<nat>)
    ensures Decides(ValidateForm(node, path), IsForm(node), node, path)
  {
    if !IsHeaded(node) {
      PointsHere(FormNotList, node, path);
      PointsHere(FormEmpty, node, path);
      if node.List? && node.items != [] { PointsAtItem(FormHead, node, path, 0); }
    } else if node.items[0].value.name in DEFINITIONS {
      DefinitionChecked(node, path);
    } else {
      ExpressionChecked(node, path);
    }
  }

  /** A top-level form and what the checks of it say about the program. */
  lemma FormOfProgramChecked(program: seq<Node>, index: nat)
    requires index < |program|
    ensures Decides(RejectSurfaceSymbols(program[index], [index]), SurfaceFree(PreorderOf(program[index])),
                    List(program, None), [])
    ensures Decides(ValidateForm(program[index], [index]), IsForm(program[index]), List(program, None), [])
  {
    var node, root := program[index], List(program, None);
    assert [] + [index] == [index];
    SurfaceChecked(node, [index]);
    PointsDeeper(RejectSurfaceSymbols(node, [index]), root, [], index);
    FormChecked(node, [index]);
    PointsDeeper(ValidateForm(node, [index]), root, [], index);
  }

  lemma {:induction false} FormsChecked(program: seq<Node>, index: nat)
    requires index <= |program|
    ensures Decides(ValidateForms(program[index..], index),
                    SurfaceFree(Preorder(program[index..])) && FormsFrom(program, index), List(program, None), [])
    decreases |program| - index
  {
    if index < |program| {
      var node, root, rest := program[index], List(program, None), program[index + 1..];
      var surface, form := RejectSurfaceSymbols(node, [index]), ValidateForm(node, [index]);
      FormOfProgramChecked(program, index);
      FormsChecked(program, index + 1);
      assert program[index..][1..] == rest;
      SurfaceFreeAppend(PreorderOf(node), Preorder(rest));
      DecidesBoth(surface, form, SurfaceFree(PreorderOf(node)), IsForm(node), root, []);
      DecidesBoth(if surface.Fail? then surface else form, ValidateForms(rest, index + 1),
                  SurfaceFree(PreorderOf(node)) && IsForm(node),
                  SurfaceFree(Preorder(rest)) && FormsFrom(program, index + 1), root, []);
      assert FormsFrom(program, index) <==> IsForm(node) && FormsFrom(program, index + 1);
    }
  }

  /** The validator accepts exactly the axiomatic programs, and a failure's path leads from the program to the
      node at the failure's location, which breaks the rule reported, in the first form that is not as it
      should be. */
  lemma ValidatorDecidesGrammar(program: seq<Node>)
    ensures ValidateProgram(program).Pass? <==> IsAxiomatic(program)
    ensures ValidateProgram(program).Fail? ==>
              var c := ValidateProgram(program);
              var culprit := NodeAt(List(program, None), c.path);
              culprit.Some? && culprit.value.loc == c.loc && Breaks(c.rule, culprit.value)
    ensures ValidateProgram(program).Fail? ==>
              var c := ValidateProgram(program);
              && c.path != [] && c.path[0] < |program|
              && (forall j :: 0 <= j < c.path[0] ==> IsForm(program[j]) && SurfaceFree(PreorderOf(program[j])))
              && (c.rule.SurfaceSymbol? <==> !SurfaceFree(PreorderOf(program[c.path[0]])))
  {
    FormsInOrder(program, 0);
    FormsChecked(program, 0);
    assert program[0..] == program;
    var c := ValidateProgram(program);
    if c.Fail? { assert c.path[0..] == c.path; }
  }

  // ----- which failure is reported

  /** The first form that is not as it should be is reported, and its surface symbols before anything else. */
  lemma {:induction false} FormsInOrder(program: seq<Node>, index: nat)
    requires index <= |program|
    ensures var c := ValidateForms(program[index..], index);
            c.Fail? ==>
              && c.path != [] && index <= c.path[0] < |program|
              && (forall j :: index <= j < c.path[0] ==> IsForm(program[j]) && SurfaceFree(PreorderOf(program[j])))
              && (c.rule.SurfaceSymbol? <==> !SurfaceFree(PreorderOf(program[c.path[0]])))
              && (c.rule.SurfaceSymbol? || !IsForm(program[c.path[0]]))
    decreases |program| - index
  {
    if index < |program| {
      FormsInOrder(program, index + 1);
      assert program[index..][1..] == program[index + 1..];
      SurfaceChecked(program[index], [index]);
      FormChecked(program[index], [index]);
      SurfaceRule(program[index], [index]);
      OtherRules(program[index], [index]);
    }
  }

  lemma {:induction false} SurfaceRule(node: Node, path: seq<nat>)
    ensures RejectSurfaceSymbols(node, path).Fail? ==> RejectSurfaceSymbols(node, path).rule == SurfaceSymbol
    decreases node, 1, 0
  {
    if node.List? { SurfaceAmongRule(node, path, 0); }
  }

  lemma {:induction false} SurfaceAmongRule(node: Node, path: seq<nat>, index: nat)
    requires node.List? && index <= |node.items|
    ensures var c := RejectSurfaceAmong(node.items[index..], path, index); c.Fail? ==> c.rule == SurfaceSymbol
    decreases node, 0, |node.items| - index
  {
    if index < |node.items| {
      SurfaceRule(node.items[index], path + [index]);
      SurfaceAmongRule(node, path, index + 1);
      assert node.items[index..][1..] == node.items[index + 1..];
    } else {
      assert node.items[index..] == [];
    }
  }

  /** The checks of a form never report a surface symbol. */
  lemma OtherRules(node: Node, path: seq<nat>)
    ensures var c := ValidateForm(node, path); c.Fail? ==> !c.rule.SurfaceSymbol?
  {
    if IsHeaded(node) {
      ExpressionRules(node, path);
      if |node.items| == 3 {
        LambdaRules("operator body", node.items[2], path + [2]);
        ExpressionRules(node.items[2], path + [2]);
      }
    }
  }

  lemma {:induction false} LambdaRules(what: string, node: Node, path: seq<nat>)
    ensures var c := ValidateLambda(what, node, path); c.Fail? ==> !c.rule.SurfaceSymbol?
    decreases node, 0, 0
  {
    if node.List? && |node.items| == 3 {
      if node.items[1].List? { ArgumentRules(node.items[1].items, path + [1], 0); }
      ExpressionRules(node.items[2], path + [2]);
    }
  }

  lemma {:induction false} ArgumentRules(items: seq<Node>, path: seq<nat>, index: nat)
    ensures var c := ValidateArguments(items, path, index); c.Fail? ==> !c.rule.SurfaceSymbol?
  {
    if items != [] { ArgumentRules(items[1..], path, index + 1); }
  }

  lemma {:induction false} TermRules(items: seq<Node>, path: seq<nat>, index: nat)
    ensures var c := ValidateTerms(items, path, index); c.Fail? ==> !c.rule.SurfaceSymbol?
  {
    if items != [] { TermRules(items[1..], path, index + 1); }
  }

  lemma {:induction false} ExpressionRules(node: Node, path: seq<nat>)
    ensures var c := ValidateExpression(node, path); c.Fail? ==> !c.rule.SurfaceSymbol?
    decreases node, 1, 0
  {
    if IsHeaded(node) {
      TermRules(node.items[1..], path, 1);
      ExpressionsRules(node, path, 1);
      if |node.items| == 3 { ExpressionRules(node.items[2], path + [2]); }
      if |node.items| == 4 {
        ExpressionRules(node.items[1], path + [1]);
        ExpressionRules(node.items[2], path + [2]);
        LambdaRules("handler", node.items[3], path + [3]);
      }
    }
  }

  lemma {:induction false} ExpressionsRules(node: Node, path: seq<nat>, index: nat)
    requires node.List? && index <= |node.items|
    ensures var c := ValidateExpressions(node.items[index..], path, index); c.Fail? ==> !c.rule.SurfaceSymbol?
    decreases node, 0, |node.items| - index
  {
    if index < |node.items| {
      ExpressionRules(node.items[index], path + [index]);
      ExpressionsRules(node, path, index + 1);
      assert node.items[index..][1..] == node.items[index + 1..];
    } else {
      assert node.items[index..] == [];
    }
  }

  /** Of the items of a general expression, the first that is not an expression is reported. */
  lemma {:induction false} ExpressionsInOrder(node: Node, path: seq<nat>, index: nat)
    requires node.List? && index <= |node.items|
    ensures var c := ValidateExpressions(node.items[index..], path, index);
            c.Fail? ==>
              && |c.path| > |path| && index <= c.path[|path|] < |node.items|
              && (forall j :: index <= j < c.path[|path|] ==> IsExpression(node.items[j]))
              && !IsExpression(node.items[c.path[|path|]])
    decreases |node.items| - index
  {
    if index < |node.items| {
      ExpressionChecked(node.items[index], path + [index]);
      ExpressionsInOrder(node, path, index + 1);
      assert node.items[index..][1..] == node.items[index + 1..];
      assert (path + [index])[|path|] == index;
    } else {
      assert node.items[index..] == [];
    }
  }

  /** Of the parts of a measurement, the first that is not as it should be is reported: the target, then the
      observable, then the handler. */
  lemma MeasureInOrder(node: Node, path: seq<nat>)
    requires node.List? && |node.items| == 4
    ensures var c := ValidateMeasure(node, path);
            c.Fail? ==>
              && |c.path| > |path|
              && c.path[|path|] == if !IsExpression(node.items[1]) then 1
                                   else if !IsExpression(node.items[2]) then 2
                                   else 3
  {
    ExpressionChecked(node.items[1], path + [1]);
    ExpressionChecked(node.items[2], path + [2]);
    LambdaChecked("handler", node.items[3], path + [3]);
    assert (path + [1])[|path|] == 1 && (path + [2])[|path|] == 2 && (path + [3])[|path|] == 3;
  }

  /** Of the parts of a lambda: the symbol, then the arguments, then the body. */
  lemma LambdaInOrder(what: string, node: Node, path: seq<nat>)
    requires node.List? && |node.items| == 3
    ensures var c := ValidateLambda(what, node, path);
            c.Fail? ==>
              && |c.path| > |path|
              && c.path[|path|] == if !IsWord(node.items[0], "?") then 0
                                   else if !IsArgList(node.items[1]) then 1
                                   else 2
  {
    ArgListChecked(node.items[1], path + [1]);
    ExpressionChecked(node.items[2], path + [2]);
    assert (path + [0])[|path|] == 0 && (path + [1])[|path|] == 1 && (path + [2])[|path|] == 2;
  }
}
