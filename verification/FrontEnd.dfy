/** The macro expander, `src/hpl/emergence/macros/expander.py`, and the front end put together: expansion,
    validation, emission and lowering. Trace collection is left out. */
module FrontEnd {
  import opened Text
  import opened Ast
  import opened Validator
  import opened IrEmitter

  // ----- symbols in first-occurrence order

  /** The distinct symbols among these nodes, in the order of their first occurrence. */
  function DistinctSymbols(nodes: seq<Node>): seq<string> {
    if nodes == [] then [] else
      var front, last := DistinctSymbols(nodes[..|nodes| - 1]), nodes[|nodes| - 1];
      if last.IsSymbol() && last.value.name !in front then front + [last.value.name] else front
  }

  /** The node at `p` is the first to hold this symbol. */
  ghost predicate FirstSeen(nodes: seq<Node>, p: nat, symbol: string) {
    p < |nodes| && nodes[p].Is(symbol) && forall q: nat :: q < p ==> !nodes[q].Is(symbol)
  }

  /** `_collect_symbol_nodes`: a seen-set and an ordered list, with the node each symbol was first seen in. */
  method CollectSymbolNodes(nodes: seq<Node>) returns (ordered: seq<(string, Node)>)
    ensures |ordered| == |DistinctSymbols(nodes)|
    ensures forall i :: 0 <= i < |ordered| ==>
              && ordered[i].0 == DistinctSymbols(nodes)[i]
              && exists p: nat :: FirstSeen(nodes, p, ordered[i].0) && nodes[p] == ordered[i].1
  {
    var seen: set<string> := {};
    ordered := [];
    for n := 0 to |nodes|
      invariant |ordered| == |DistinctSymbols(nodes[..n])|
      invariant forall i :: 0 <= i < |ordered| ==>
                  && ordered[i].0 == DistinctSymbols(nodes[..n])[i]
                  && exists p: nat :: FirstSeen(nodes, p, ordered[i].0) && nodes[p] == ordered[i].1
      invariant forall q: nat :: q < n && nodes[q].IsSymbol() ==> nodes[q].value.name in seen
      invariant forall s :: s in seen <==> s in DistinctSymbols(nodes[..n])
    {
      var node := nodes[n];
      assert nodes[..n + 1][..n] == nodes[..n];
      if node.IsSymbol() {
        var symbol := node.value.name;
        if symbol !in seen {
          seen := seen + {symbol};
          ordered := ordered + [(symbol, node)];
          assert FirstSeen(nodes, n, symbol);
        }
      }
    }
    assert nodes[..|nodes|] == nodes;
  }

  /** `s` occurs at a position up to which `t` has not occurred. */
  ghost predicate OccursBefore(nodes: seq<Node>, p: nat, s: string, t: string) {
    p < |nodes| && nodes[p].Is(s) && forall q: nat :: q <= p ==> !nodes[q].Is(t)
  }

  /** Exactly the symbols that occur are listed, each once. */
  lemma {:induction false} DistinctSymbolsOccur(nodes: seq<Node>)
    ensures Distinct(DistinctSymbols(nodes))
    ensures forall s :: s in DistinctSymbols(nodes) <==> exists n :: n in nodes && n.Is(s)
  {
    if nodes != [] {
      var front, last := nodes[..|nodes| - 1], nodes[|nodes| - 1];
      DistinctSymbolsOccur(front);
      assert nodes == front + [last] && last in nodes;
      forall s ensures s in DistinctSymbols(nodes) <==> exists n :: n in nodes && n.Is(s) {
        if s in DistinctSymbols(front) {
          var n :| n in front && n.Is(s);
          assert n in nodes;
        }
        if n :| n in nodes && n.Is(s) { assert n in front || n == last; }
      }
    }
  }

  /** A symbol is listed before the symbols that first occur later. */
  lemma {:induction false} DistinctSymbolsInOrder(nodes: seq<Node>, i: nat, j: nat)
    requires i < j < |DistinctSymbols(nodes)|
    ensures exists p: nat :: OccursBefore(nodes, p, DistinctSymbols(nodes)[i], DistinctSymbols(nodes)[j])
  {
    var front, last := nodes[..|nodes| - 1], nodes[|nodes| - 1];
    var before, s, t := DistinctSymbols(front), DistinctSymbols(nodes)[i], DistinctSymbols(nodes)[j];
    DistinctSymbolsOccur(front);
    if j < |before| {
      DistinctSymbolsInOrder(front, i, j);
      var p: nat :| OccursBefore(front, p, s, t);
      assert forall q: nat :: q <= p ==> nodes[q] == front[q];
      assert OccursBefore(nodes, p, s, t);
    } else {
      assert s == before[i] && s in before && t !in before;
      var n :| n in front && n.Is(s);
      var p: nat :| p < |front| && front[p] == n;
      forall q: nat | q <= p ensures !nodes[q].Is(t) { assert nodes[q] == front[q] && front[q] in front; }
      assert OccursBefore(nodes, p, s, t);
    }
  }

  // ----- expansion

  datatype Expansion = Expanded(program: seq<Node>) | MacroExpansionError(message: string)

  function MakeTerm(operatorId: string): Node {
    List([Atom(Sym("term"), None), Atom(Sym(operatorId), None), Atom(Flt(1.0), None)], None)
  }

  const SURF_PREFIX := "SURF_"

  function SurfTerms(symbols: seq<string>): seq<Node> {
    seq(|symbols|, i requires 0 <= i < |symbols| => MakeTerm(SURF_PREFIX + symbols[i]))
  }

  function Hamiltonian(symbols: seq<string>): Node {
    List([Atom(Sym("hamiltonian"), None)] + SurfTerms(symbols), None)
  }

  /** The symbols of a surface program in first-occurrence preorder. */
  function Symbols(program: seq<Node>): seq<string> {
    DistinctSymbols(PreorderOf(List(program, None)))
  }

  /** `expand_program` */
  method ExpandProgram(program: seq<Node>) returns (r: Expansion)
    ensures Symbols(program) == [] ==> r == MacroExpansionError("Surface program contains no symbols")
    ensures Symbols(program) != [] ==> r == Expanded([Hamiltonian(Symbols(program))])
  {
    var visited := IterNodes(List(program, None));
    var symbols := CollectSymbolNodes(visited);
    if symbols == [] { return MacroExpansionError("Surface program contains no symbols"); }
    var terms: seq<Node> := [];
    for i := 0 to |symbols|
      invariant terms == SurfTerms(Symbols(program))[..i]
    {
      terms := terms + [MakeTerm("SURF_" + symbols[i].0)];
    }
    assert terms == SurfTerms(Symbols(program));
    r := Expanded([List([Atom(Sym("hamiltonian"), None)] + terms, None)]);
  }

  // ----- the pipeline

  lemma NotSurface(name: string)
    requires name == "hamiltonian" || name == "term" || SURF_PREFIX <= name
    ensures name !in SURFACE_SYMBOLS
  {
    assert SURF_PREFIX <= name ==> name[0] == 'S';
    assert |"hamiltonian"| == 11 && |"term"| == 4;
    assert "term"[1] != "size"[1];
  }

  lemma {:induction false} SurfTermsPass(symbols: seq<string>, path: seq<nat>, index: nat)
    ensures RejectSurfaceAmong(SurfTerms(symbols), path, index).Pass?
    ensures ValidateTerms(SurfTerms(symbols), path, index).Pass?
  {
    if symbols != [] {
      assert SurfTerms(symbols)[1..] == SurfTerms(symbols[1..]);
      SurfTermPasses(SURF_PREFIX + symbols[0], path + [index]);
      SurfTermsPass(symbols[1..], path, index + 1);
    }
  }

  lemma SurfTermPasses(operatorId: string, path: seq<nat>)
    requires SURF_PREFIX <= operatorId
    ensures RejectSurfaceSymbols(MakeTerm(operatorId), path).Pass?
    ensures ValidateTerm(MakeTerm(operatorId), path).Pass?
  {
    NotSurface("term");
    NotSurface(operatorId);
    var items := MakeTerm(operatorId).items;
    var third := items[1..][1..];
    assert third[1..] == [] && third[0] == items[2];
    assert RejectSurfaceAmong(third, path, 2).Pass?;
    assert RejectSurfaceAmong(items[1..], path, 1).Pass?;
    assert RejectSurfaceSymbols(items[0], path + [0]).Pass?;
    assert RejectSurfaceAmong(items, path, 0).Pass?;
  }

  /** What `expand_program` produces is accepted by `validate_program`. */
  lemma ExpansionValidates(symbols: seq<string>)
    requires symbols != []
    ensures ValidateProgram([Hamiltonian(symbols)]).Pass?
  {
    var h := Hamiltonian(symbols);
    assert h.items[1..] == SurfTerms(symbols) && h.items[0].Is("hamiltonian");
    NotSurface("hamiltonian");
    SurfTermsPass(symbols, [0], 1);
    assert [h][1..] == [];
    assert RejectSurfaceSymbols(h.items[0], [0] + [0]).Pass?;
    assert RejectSurfaceAmong(h.items, [0], 0).Pass?;
    assert |h.items| >= 2;
    assert ValidateHamiltonian(h, [0]).Pass?;
    assert "hamiltonian"[0] == 'h' && "operator"[0] == 'o' && "invariant"[0] == 'i' && "scheduler"[0] == 's'
           && "observer"[0] == 'o';
    assert ValidateForm(h, [0]) == ValidateExpression(h, [0]) == ValidateHamiltonian(h, [0]);
    assert ValidateForms([h], 0).Pass?;
  }

  /** The emitter's terms for an expanded program: one per symbol, prefixed, with coefficient one. */
  lemma ExpansionEmits(symbols: seq<string>)
    requires symbols != []
    ensures var terms := TermsBelowAll([Hamiltonian(symbols)]);
            && |terms| == |symbols|
            && forall i :: 0 <= i < |symbols| ==> terms[i].operatorId == SURF_PREFIX + symbols[i]
                                                  && terms[i].coefficient == 1.0
  {
    var h := Hamiltonian(symbols);
    ExpansionValidates(symbols);
    ValidatedEmitsExactly([h]);
    assert [h][1..] == [] && h.items[1..] == SurfTerms(symbols);
    assert ProgramChildren([h]) == FormChildren(h) + [] == SurfTerms(symbols);
    forall i | 0 <= i < |symbols|
      ensures TermFromNode(SurfTerms(symbols)[i]) == Some(Term(SURF_PREFIX + symbols[i], 1.0, SurfTerms(symbols)[i]))
    {}
  }

  lemma PrefixInjective(a: string, b: string)
    ensures SURF_PREFIX + a == SURF_PREFIX + b ==> a == b
  {
    assert (SURF_PREFIX + a)[|SURF_PREFIX|..] == a && (SURF_PREFIX + b)[|SURF_PREFIX|..] == b;
  }

  lemma DistinctOperators(terms: seq<IrTerm>, symbols: seq<string>)
    requires |terms| == |symbols| && Distinct(symbols)
    requires forall i :: 0 <= i < |symbols| ==> terms[i].operatorId == SURF_PREFIX + symbols[i]
    ensures |OperatorIds(terms)| == |terms|
  {
    var ids := OperatorIds(terms);
    if terms == [] {
      assert ids == {};
    } else {
      var n := |terms| - 1;
      DistinctOperators(terms[..n], symbols[..n]);
      var before := OperatorIds(terms[..n]);
      assert terms == terms[..n] + [terms[n]];
      forall i | 0 <= i < n ensures terms[i].operatorId != terms[n].operatorId {
        PrefixInjective(symbols[i], symbols[n]);
      }
      assert terms[n].operatorId !in before;
      assert ids == before + {terms[n].operatorId};
    }
  }

  datatype Compiled = Compiled(ir: ProgramIr, ops: seq<Op>) | Rejected(message: string)

  /** Expansion, validation, emission and lowering of a surface program: fails exactly if the program has
      no symbol, and otherwise yields one term, one operator and one op per distinct symbol, in
      first-occurrence preorder. */
  method Compile(program: seq<Node>, programId: string) returns (r: Compiled)
    ensures r.Rejected? <==> Symbols(program) == []
    ensures r.Compiled? ==>
              var symbols := Symbols(program);
              && |r.ir.terms| == |r.ops| == |r.ir.operators| == |symbols|
              && forall i :: 0 <= i < |symbols| ==>
                   && r.ir.terms[i] == IrTerm("SURF_" + symbols[i], "C", 1.0)
                   && r.ops[i] == Op(i, "SURF_" + symbols[i], "C", 1.0)
  {
    var expansion := ExpandProgram(program);
    match expansion {
      case MacroExpansionError(message) =>
        return Rejected(message);
      case Expanded(expanded) =>
        var symbols := Symbols(program);
        ExpansionValidates(symbols);
        var check := ValidateProgram(expanded);
        match check {
          case Fail(rule, _, _) => return Rejected(Message(rule));
          case Pass =>
        }
        var emission := EmitProgramIr(expanded, programId);
        var ir := emission.ir;
        var ops := BuildOps(ir.terms);
        ExpansionEmits(symbols);
        DistinctSymbolsOccur(PreorderOf(List(program, None)));
        DistinctOperators(ir.terms, symbols);
        assert |ir.operators| == |ir.operators.Keys| == |OperatorIds(ir.terms)|;
        r := Compiled(ir, ops);
    }
  }
}
