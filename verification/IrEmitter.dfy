/** The IR emitter, `src/hpl/dynamics/ir_emitter.py`, and the lowering of its terms, `_build_ops` in
    `src/hpl/backends/classical_lowering.py`. */
module IrEmitter {
  import opened Text
  import opened Ast
  import opened Validator

  /** An emitted term with the node it came from. */
  datatype Term = Term(operatorId: string, coefficient: real, node: Node)

  /** `float(value)` */
  function AsReal(value: Value): real {
    match value
    case Sym(_) => 0.0
    case Int(n) => n as real
    case Flt(r) => r
  }

  /** `_term_from_node` */
  function TermFromNode(node: Node): Option<Term> {
    if node.Atom? || |node.items| != 3 then None
    else
      var items := node.items;
      if items[0].Is("term") && items[1].IsSymbol() && items[2].IsNumber() then
        Some(Term(items[1].value.name, AsReal(items[2].value), node))
      else None
  }

  /** The terms among these nodes, in order. */
  function TermsAmong(nodes: seq<Node>): seq<Term> {
    if nodes == [] then []
    else TermsAmong(nodes[..|nodes| - 1])
         + match TermFromNode(nodes[|nodes| - 1]) case Some(t) => [t] case None => []
  }

  /** What the emitter finds below a node: in a list headed by `hamiltonian`, its terms; elsewhere, whatever
      is below any of the items. */
  function TermsBelow(node: Node): seq<Term>
    decreases node, 1
  {
    if node.Atom? || node.items == [] then []
    else if node.items[0].Is("hamiltonian") then TermsAmong(node.items[1..])
    else TermsBelowAll(node.items)
  }

  function TermsBelowAll(nodes: seq<Node>): seq<Term>
    decreases nodes, 0
  {
    if nodes == [] then [] else TermsBelow(nodes[0]) + TermsBelowAll(nodes[1..])
  }

  lemma {:induction false} TermsBelowSnoc(nodes: seq<Node>, node: Node)
    ensures TermsBelowAll(nodes + [node]) == TermsBelowAll(nodes) + TermsBelow(node)
  {
    if nodes == [] {
      assert [node][1..] == [] && nodes + [node] == [node];
    } else {
      TermsBelowSnoc(nodes[1..], node);
      assert (nodes + [node])[1..] == nodes[1..] + [node] && (nodes + [node])[0] == nodes[0];
      assert TermsBelow(nodes[0]) + (TermsBelowAll(nodes[1..]) + TermsBelow(node))
             == TermsBelow(nodes[0]) + TermsBelowAll(nodes[1..]) + TermsBelow(node);
    }
  }

  /** The loop over the children of a hamiltonian. */
  method AppendTerms(nodes: seq<Node>, terms: seq<Term>) returns (r: seq<Term>)
    ensures r == terms + TermsAmong(nodes)
  {
    r := terms;
    for i := 0 to |nodes|
      invariant r == terms + TermsAmong(nodes[..i])
    {
      assert nodes[..i + 1][..i] == nodes[..i];
      var term := TermFromNode(nodes[i]);
      if term.Some? { r := r + [term.value]; }
    }
    assert nodes[..|nodes|] == nodes;
  }

  /** `_collect_terms_from_node`, with the shared list passed through. */
  method CollectTermsFromNode(node: Node, terms: seq<Term>) returns (r: seq<Term>)
    ensures r == terms + TermsBelow(node)
    decreases node
  {
    r := terms;
    if node.Atom? { return; }
    var items := node.items;
    if items == [] { return; }
    if items[0].Is("hamiltonian") {
      r := AppendTerms(items[1..], terms);
      return;
    }
    for i := 0 to |items|
      invariant r == terms + TermsBelowAll(items[..i])
    {
      r := CollectTermsFromNode(items[i], r);
      TermsBelowSnoc(items[..i], items[i]);
      assert items[..i + 1] == items[..i] + [items[i]];
      assert terms + TermsBelowAll(items[..i]) + TermsBelow(items[i])
             == terms + (TermsBelowAll(items[..i]) + TermsBelow(items[i]));
    }
    assert items[..|items|] == items;
  }

  /** `_collect_terms` */
  method CollectTerms(program: seq<Node>) returns (terms: seq<Term>)
    ensures terms == TermsBelowAll(program)
  {
    terms := [];
    for i := 0 to |program|
      invariant terms == TermsBelowAll(program[..i])
    {
      terms := CollectTermsFromNode(program[i], terms);
      TermsBelowSnoc(program[..i], program[i]);
      assert program[..i + 1] == program[..i] + [program[i]];
    }
    assert program[..|program|] == program;
  }

  // ----- the grammar's view

  /** The children of the hamiltonian forms at and below an expression, in preorder. */
  function ExpressionChildren(node: Node): seq<Node>
    decreases node, 1
  {
    if node.Atom? || node.items == [] then []
    else
      var items := node.items;
      if items[0].Is("hamiltonian") then items[1..]
      else if items[0].Is("evolve") then if |items| == 3 then ExpressionChildren(items[2]) else []
      else if items[0].Is("measure") then
        if |items| == 4 then
          ExpressionChildren(items[1]) + ExpressionChildren(items[2]) + LambdaChildren(items[3])
        else []
      else ExpressionsChildren(items[1..])
  }

  function ExpressionsChildren(nodes: seq<Node>): seq<Node>
    decreases nodes, 2
  {
    if nodes == [] then [] else ExpressionChildren(nodes[0]) + ExpressionsChildren(nodes[1..])
  }

  /** A lambda holds one expression, after its argument list. */
  function LambdaChildren(node: Node): seq<Node>
    decreases node, 0
  {
    if node.List? && |node.items| == 3 then ExpressionChildren(node.items[2]) else []
  }

  function FormChildren(form: Node): seq<Node> {
    if form.Atom? || form.items == [] then []
    else
      var items := form.items;
      if items[0].Is("operator") then if |items| == 3 then LambdaChildren(items[2]) else []
      else if items[0].Is("invariant") || items[0].Is("scheduler") || items[0].Is("observer") then
        if |items| == 3 then ExpressionChildren(items[2]) else []
      else ExpressionChildren(form)
  }

  function ProgramChildren(program: seq<Node>): seq<Node> {
    if program == [] then [] else FormChildren(program[0]) + ProgramChildren(program[1..])
  }

  /** The terms are exactly these nodes, one for one and in order. */
  ghost predicate Emits(terms: seq<Term>, nodes: seq<Node>) {
    |terms| == |nodes| && forall i :: 0 <= i < |nodes| ==> TermFromNode(nodes[i]) == Some(terms[i])
  }

  lemma {:induction false} ValidTermsEmitted(nodes: seq<Node>)
    requires forall n, path :: n in nodes ==> ValidateTerm(n, path).Pass?
    ensures Emits(TermsAmong(nodes), nodes)
  {
    if nodes != [] {
      var front, last := nodes[..|nodes| - 1], nodes[|nodes| - 1];
      ValidTermsEmitted(front);
      assert ValidateTerm(last, []).Pass?;
    }
  }

  lemma {:induction false} TermsPass(nodes: seq<Node>, path: seq<nat>, index: nat)
    requires ValidateTerms(nodes, path, index).Pass?
    ensures forall n, p :: n in nodes ==> ValidateTerm(n, p).Pass?
  {
    if nodes != [] { TermsPass(nodes[1..], path, index + 1); }
  }

  lemma {:induction false} AtomsEmitNothing(nodes: seq<Node>)
    requires forall n :: n in nodes ==> n.Atom?
    ensures TermsBelowAll(nodes) == [] && TermsAmong(nodes) == []
  {
    if nodes != [] {
      AtomsEmitNothing(nodes[1..]);
      AtomsEmitNothing(nodes[..|nodes| - 1]);
    }
  }

  lemma {:induction false} ArgumentsAreAtoms(nodes: seq<Node>, path: seq<nat>, index: nat)
    requires ValidateArguments(nodes, path, index).Pass?
    ensures forall n :: n in nodes ==> n.Atom?
  {
    if nodes != [] { ArgumentsAreAtoms(nodes[1..], path, index + 1); }
  }

  /** The emitter also walks argument lists, even ones headed by `hamiltonian`, and finds nothing there. */
  lemma ArgListEmitsNothing(node: Node, path: seq<nat>)
    requires ValidateArgList(node, path).Pass?
    ensures TermsBelow(node) == []
  {
    ArgumentsAreAtoms(node.items, path, 0);
    AtomsEmitNothing(node.items);
    if node.items != [] { AtomsEmitNothing(node.items[1..]); }
  }

  lemma EmitsAppend(s: seq<Term>, a: seq<Node>, t: seq<Term>, b: seq<Node>)
    requires Emits(s, a) && Emits(t, b)
    ensures Emits(s + t, a + b)
  {}

  lemma Three(nodes: seq<Node>)
    requires |nodes| == 3
    ensures TermsBelowAll(nodes) == TermsBelow(nodes[0]) + TermsBelow(nodes[1]) + TermsBelow(nodes[2])
  {
    var last := nodes[1..][1..];
    assert last[1..] == [];
    assert TermsBelowAll(last) == TermsBelow(nodes[2]) + [] == TermsBelow(nodes[2]);
    assert TermsBelowAll(nodes[1..]) == TermsBelow(nodes[1]) + TermsBelow(nodes[2]);
    assert TermsBelow(nodes[0]) + (TermsBelow(nodes[1]) + TermsBelow(nodes[2]))
           == TermsBelow(nodes[0]) + TermsBelow(nodes[1]) + TermsBelow(nodes[2]);
  }

  lemma {:induction false} LambdaEmits(what: string, node: Node, path: seq<nat>)
    requires ValidateLambda(what, node, path).Pass?
    ensures Emits(TermsBelow(node), LambdaChildren(node))
    decreases node, 0
  {
    Three(node.items);
    ArgListEmitsNothing(node.items[1], path + [1]);
    ExpressionEmits(node.items[2], path + [2]);
    assert !node.items[0].Is("hamiltonian") by { assert |LAMBDA_SYMBOL| == 1; }
  }

  lemma {:induction false} ExpressionEmits(node: Node, path: seq<nat>)
    requires ValidateExpression(node, path).Pass?
    ensures Emits(TermsBelow(node), ExpressionChildren(node))
    decreases node, 1
  {
    if node.List? {
      var items := node.items;
      if items[0].Is("hamiltonian") {
        TermsPass(items[1..], path, 1);
        ValidTermsEmitted(items[1..]);
      } else if items[0].Is("evolve") {
        Three(items);
        ExpressionEmits(items[2], path + [2]);
      } else if items[0].Is("measure") {
        ExpressionEmits(items[1], path + [1]);
        ExpressionEmits(items[2], path + [2]);
        LambdaEmits("handler", items[3], path + [3]);
        assert items == [items[0]] + items[1..];
        Three(items[1..]);
        EmitsAppend(TermsBelow(items[1]), ExpressionChildren(items[1]),
                    TermsBelow(items[2]), ExpressionChildren(items[2]));
        EmitsAppend(TermsBelow(items[1]) + TermsBelow(items[2]),
                    ExpressionChildren(items[1]) + ExpressionChildren(items[2]),
                    TermsBelow(items[3]), LambdaChildren(items[3]));
      } else {
        ExpressionsEmit(items[1..], path, 1);
      }
    }
  }

  lemma {:induction false} ExpressionsEmit(nodes: seq<Node>, path: seq<nat>, index: nat)
    requires ValidateExpressions(nodes, path, index).Pass?
    ensures Emits(TermsBelowAll(nodes), ExpressionsChildren(nodes))
    decreases nodes, 2
  {
    if nodes != [] {
      ExpressionEmits(nodes[0], path + [index]);
      ExpressionsEmit(nodes[1..], path, index + 1);
      EmitsAppend(TermsBelow(nodes[0]), ExpressionChildren(nodes[0]),
                  TermsBelowAll(nodes[1..]), ExpressionsChildren(nodes[1..]));
    }
  }

  lemma FormEmits(form: Node, path: seq<nat>)
    requires ValidateForm(form, path).Pass?
    ensures Emits(TermsBelow(form), FormChildren(form))
  {
    var items := form.items;
    var head := items[0].value.name;
    if head == "operator" {
      Three(items);
      LambdaEmits("operator body", items[2], path + [2]);
    } else if head == "invariant" || head == "scheduler" || head == "observer" {
      Three(items);
      ExpressionEmits(items[2], path + [2]);
    } else {
      ExpressionEmits(form, path);
    }
  }

  lemma {:induction false} FormsEmit(forms: seq<Node>, index: nat)
    requires ValidateForms(forms, index).Pass?
    ensures Emits(TermsBelowAll(forms), ProgramChildren(forms))
  {
    if forms != [] {
      FormEmits(forms[0], [index]);
      FormsEmit(forms[1..], index + 1);
      EmitsAppend(TermsBelow(forms[0]), FormChildren(forms[0]), TermsBelowAll(forms[1..]), ProgramChildren(forms[1..]));
    }
  }

  /** In a validated program the emitter drops nothing and invents nothing: its terms are, one for one and
      in preorder, the children of the hamiltonian forms in expression position. */
  lemma ValidatedEmitsExactly(program: seq<Node>)
    requires ValidateProgram(program).Pass?
    ensures Emits(TermsBelowAll(program), ProgramChildren(program))
  {
    FormsEmit(program, 0);
  }

  // ----- programs that were not validated

  /** The children of the hamiltonian forms that the emitter's walk reaches, in its order. */
  function WalkedChildren(node: Node): seq<Node>
    decreases node, 1
  {
    if node.Atom? || node.items == [] then []
    else if node.items[0].Is("hamiltonian") then node.items[1..]
    else WalkedChildrenAll(node.items)
  }

  function WalkedChildrenAll(nodes: seq<Node>): seq<Node>
    decreases nodes, 0
  {
    if nodes == [] then [] else WalkedChildren(nodes[0]) + WalkedChildrenAll(nodes[1..])
  }

  /** The well-formed terms among these nodes, in order. */
  function WellFormed(nodes: seq<Node>): seq<Node> {
    if nodes == [] then []
    else WellFormed(nodes[..|nodes| - 1])
         + if ValidateTerm(nodes[|nodes| - 1], []).Pass? then [nodes[|nodes| - 1]] else []
  }

  lemma {:induction false} TermsAmongAppend(a: seq<Node>, b: seq<Node>)
    ensures TermsAmong(a + b) == TermsAmong(a) + TermsAmong(b)
  {
    if b == [] {
      assert a + b == a;
    } else {
      TermsAmongAppend(a, b[..|b| - 1]);
      assert (a + b)[..|a + b| - 1] == a + b[..|b| - 1];
    }
  }

  lemma {:induction false} TermsAreWalked(node: Node)
    ensures TermsBelow(node) == TermsAmong(WalkedChildren(node))
    decreases node, 1
  {
    if node.List? { AllTermsAreWalked(node.items); }
  }

  /** The emitter's terms are those among the children it walks. */
  lemma {:induction false} AllTermsAreWalked(nodes: seq<Node>)
    ensures TermsBelowAll(nodes) == TermsAmong(WalkedChildrenAll(nodes))
    decreases nodes, 0
  {
    if nodes != [] {
      TermsAreWalked(nodes[0]);
      AllTermsAreWalked(nodes[1..]);
      TermsAmongAppend(WalkedChildren(nodes[0]), WalkedChildrenAll(nodes[1..]));
    }
  }

  lemma {:induction false} EmitsWellFormed(nodes: seq<Node>)
    ensures Emits(TermsAmong(nodes), WellFormed(nodes))
    ensures |WellFormed(nodes)| <= |nodes|
    ensures |WellFormed(nodes)| == |nodes| <==> forall n :: n in nodes ==> ValidateTerm(n, []).Pass?
  {
    if nodes != [] {
      var front, last := nodes[..|nodes| - 1], nodes[|nodes| - 1];
      EmitsWellFormed(front);
      assert nodes == front + [last] && last in nodes;
    }
  }

  /** Terms know the nodes they come from. */
  lemma EmitsOnly(terms: seq<Term>, a: seq<Node>, b: seq<Node>)
    requires Emits(terms, a)
    ensures Emits(terms, b) <==> a == b
  {
    if Emits(terms, b) {
      forall i | 0 <= i < |a| ensures a[i] == b[i] { assert terms[i].node == a[i]; }
    }
  }

  /** On any program, validated or not: as many terms are emitted as children are walked exactly if each of
      these is a well-formed term. */
  lemma DropsNothingIff(program: seq<Node>)
    ensures |TermsBelowAll(program)| == |WalkedChildrenAll(program)| <==>
              forall n :: n in WalkedChildrenAll(program) ==> ValidateTerm(n, []).Pass?
  {
    AllTermsAreWalked(program);
    EmitsWellFormed(WalkedChildrenAll(program));
  }

  /** On any program, validated or not: the terms are exactly the children of the hamiltonian forms in
      expression position if and only if these are just the well-formed terms among the children walked. */
  lemma EmitsExactlyIff(program: seq<Node>)
    ensures Emits(TermsBelowAll(program), ProgramChildren(program)) <==>
              WellFormed(WalkedChildrenAll(program)) == ProgramChildren(program)
  {
    AllTermsAreWalked(program);
    EmitsWellFormed(WalkedChildrenAll(program));
    EmitsOnly(TermsBelowAll(program), WellFormed(WalkedChildrenAll(program)), ProgramChildren(program));
  }

  function Symbol(name: string): Node {
    Atom(Sym(name), None)
  }

  /** `(hamiltonian x)` */
  const MALFORMED_TERM := List([Symbol("hamiltonian"), Symbol("x")], None)

  /** The emitter drops the child of this form. */
  lemma UnvalidatedDrops()
    ensures ProgramChildren([MALFORMED_TERM]) == [Symbol("x")] && TermsBelowAll([MALFORMED_TERM]) == []
  {
    var h := MALFORMED_TERM;
    assert [h][1..] == [] && h.items[1..] == [Symbol("x")] && h.items[1..][..0] == [];
    assert ProgramChildren([h]) == FormChildren(h) + [];
    assert TermsBelowAll([h]) == TermsAmong(h.items[1..]) + [];
  }

  /** `(term x 1)` */
  const UNIT_TERM := List([Symbol("term"), Symbol("x"), Atom(Int(1), None)], None)

  /** `(evolve (hamiltonian (term x 1)))` */
  const EVOLVE_WITHOUT_TARGET := List([Symbol("evolve"), List([Symbol("hamiltonian"), UNIT_TERM], None)], None)

  /** The emitter finds a term in this form, which has no expression position. */
  lemma UnvalidatedInvents()
    ensures ProgramChildren([EVOLVE_WITHOUT_TARGET]) == []
    ensures TermsBelowAll([EVOLVE_WITHOUT_TARGET]) == [Term("x", 1.0, UNIT_TERM)]
  {
    var e := EVOLVE_WITHOUT_TARGET;
    var h := e.items[1];
    assert [e][1..] == [] && e.items[1..] == [h] && [h][1..] == [];
    assert h.items[1..] == [UNIT_TERM] && [UNIT_TERM][..0] == [];
    assert TermsAmong([UNIT_TERM]) == [] + [Term("x", 1.0, UNIT_TERM)];
    assert TermsBelow(h) == TermsAmong(h.items[1..]);
    assert TermsBelowAll([h]) == TermsBelow(h) + [];
    assert TermsBelowAll(e.items) == TermsBelow(e.items[0]) + TermsBelowAll([h]) == TermsBelow(h);
    assert TermsBelowAll([e]) == TermsBelow(e) + [];
    assert !e.items[0].Is("hamiltonian") && "evolve"[0] == 'e' && "operator"[0] == 'o';
    assert ProgramChildren([e]) == FormChildren(e) + [];
  }

  // ----- the IR and its lowering

  datatype IrTerm = IrTerm(operatorId: string, cls: string, coefficient: real)

  datatype OperatorSpec = OperatorSpec(kind: string, commutesWith: seq<string>, backendMap: seq<string>)

  datatype SchedulerSpec = SchedulerSpec(collapsePolicy: string, authorizedObservers: seq<string>)

  datatype Invariant = Invariant(id: string, expression: string)

  datatype ProgramIr = ProgramIr(programId: string, terms: seq<IrTerm>, operators: map<string, OperatorSpec>,
                                 invariants: seq<Invariant>, scheduler: SchedulerSpec)

  /** The classes `docs/spec/04_ir_schema.json` lists. */
  const CLASSES := {"U", "M", "\U{03A9}", "C", "I", "A"}

  /** `validate_program_ir`, as far as the types do not make its checks hold. */
  method ValidateProgramIr(ir: ProgramIr) returns (ok: bool)
    ensures ok <==> forall i :: 0 <= i < |ir.terms| ==> ir.terms[i].cls in {"U", "M", "\U{03A9}", "C", "I", "A"}
  {
    for i := 0 to |ir.terms|
      invariant forall j :: 0 <= j < i ==> ir.terms[j].cls in CLASSES
    {
      if ir.terms[i].cls !in CLASSES { return false; }
    }
    ok := true;
  }

  function IrTerms(terms: seq<Term>): seq<IrTerm> {
    seq(|terms|, i requires 0 <= i < |terms| => IrTerm(terms[i].operatorId, "C", terms[i].coefficient))
  }

  function OperatorIds(terms: seq<IrTerm>): set<string> {
    set t | t in terms :: t.operatorId
  }

  datatype Emission = Emitted(ir: ProgramIr) | SchemaError(message: string)

  // ----- what an emitted term says

  /** The coefficient a number node stands for. */
  predicate StandsFor(node: Node, coefficient: real) {
    node.Atom? && match node.value
                  case Int(n) => coefficient == n as real
                  case Flt(r) => coefficient == r
                  case Sym(_) => false
  }

  /** A term names the operator of its node, and has the number of its node as coefficient. */
  predicate Tells(node: Node, operatorId: string, coefficient: real) {
    && node.List? && |node.items| == 3
    && node.items[0].Atom? && node.items[0].value == Sym("term")
    && node.items[1].Atom? && node.items[1].value == Sym(operatorId)
    && StandsFor(node.items[2], coefficient)
  }

  /** Exactly the nodes of this form yield a term, which tells what they say. */
  lemma TermMeans(node: Node)
    ensures forall t :: TermFromNode(node) == Some(t) <==> t.node == node && Tells(node, t.operatorId, t.coefficient)
  {}

  /** The terms emitted for a validated program tell, one for one and in order, what the children of its
      hamiltonian forms say. */
  ghost predicate TermsTell(terms: seq<IrTerm>, nodes: seq<Node>) {
    && |terms| == |nodes|
    && forall i :: 0 <= i < |terms| ==>
                     terms[i].cls == "C" && Tells(nodes[i], terms[i].operatorId, terms[i].coefficient)
  }

  lemma ValidatedTermsTell(program: seq<Node>)
    requires ValidateProgram(program).Pass?
    ensures TermsTell(IrTerms(TermsBelowAll(program)), ProgramChildren(program))
  {
    ValidatedEmitsExactly(program);
    var terms, nodes := TermsBelowAll(program), ProgramChildren(program);
    forall i | 0 <= i < |terms| ensures Tells(nodes[i], terms[i].operatorId, terms[i].coefficient) {
      TermMeans(nodes[i]);
      assert TermFromNode(nodes[i]) == Some(terms[i]);
    }
  }

  /** The same for any program and the well-formed terms among the children that are walked. */
  lemma EmittedTermsTell(program: seq<Node>)
    ensures TermsTell(IrTerms(TermsBelowAll(program)), WellFormed(WalkedChildrenAll(program)))
  {
    AllTermsAreWalked(program);
    EmitsWellFormed(WalkedChildrenAll(program));
    var terms, nodes := TermsBelowAll(program), WellFormed(WalkedChildrenAll(program));
    forall i | 0 <= i < |terms| ensures Tells(nodes[i], terms[i].operatorId, terms[i].coefficient) {
      TermMeans(nodes[i]);
      assert TermFromNode(nodes[i]) == Some(terms[i]);
    }
  }

  /** `emit_program_ir`: what it emits always passes its own schema check. */
  method EmitProgramIr(program: seq<Node>, programId: string) returns (r: Emission)
    ensures r.Emitted? && r.ir.programId == programId && r.ir.terms == IrTerms(TermsBelowAll(program))
    ensures ValidateProgram(program).Pass? ==> TermsTell(r.ir.terms, ProgramChildren(program))
    ensures TermsTell(r.ir.terms, WellFormed(WalkedChildrenAll(program)))
    ensures forall id :: id in r.ir.operators <==> exists i :: 0 <= i < |r.ir.terms| && r.ir.terms[i].operatorId == id
    ensures r.ir.operators.Keys == OperatorIds(r.ir.terms)
    ensures forall id :: id in r.ir.operators ==> r.ir.operators[id] == OperatorSpec("unspecified", [], [])
    ensures r.ir.invariants == [] && r.ir.scheduler == SchedulerSpec("unspecified", [])
  {
    var terms := CollectTerms(program);
    var irTerms := IrTerms(terms);
    var operators := map id | id in OperatorIds(irTerms) :: OperatorSpec("unspecified", [], []);
    var ir := ProgramIr(programId, irTerms, operators, [], SchedulerSpec("unspecified", []));
    var ok := ValidateProgramIr(ir);
    if !ok { return SchemaError("term.cls not in enum"); }
    EmittedTermsTell(program);
    if ValidateProgram(program).Pass? { ValidatedTermsTell(program); }
    forall id ensures id in OperatorIds(irTerms) <==> exists i :: 0 <= i < |irTerms| && irTerms[i].operatorId == id {
      if i :| 0 <= i < |irTerms| && irTerms[i].operatorId == id { assert irTerms[i] in irTerms; }
    }
    r := Emitted(ir);
  }

  datatype Op = Op(index: nat, operatorId: string, cls: string, coefficient: real)

  /** `_build_ops` */
  method BuildOps(terms: seq<IrTerm>) returns (ops: seq<Op>)
    ensures |ops| == |terms|
    ensures forall i :: 0 <= i < |terms| ==>
              ops[i] == Op(i, terms[i].operatorId, terms[i].cls, terms[i].coefficient)
  {
    ops := [];
    for idx := 0 to |terms|
      invariant |ops| == idx
      invariant forall i :: 0 <= i < idx ==> ops[i] == Op(i, terms[i].operatorId, terms[i].cls, terms[i].coefficient)
    {
      ops := ops + [Op(idx, terms[idx].operatorId, terms[idx].cls, terms[idx].coefficient)];
    }
  }
}
