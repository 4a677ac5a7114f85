/** The S-expression parser: `_parse_atom` and `parse_program` in `src/hpl/emergence/dsl/parser.py`.
    Python's `int` and `float` on texts are parameters; `IntOf` is `int` on ASCII texts. */
module Parser {
  import opened Text
  import opened Ast
  import opened Lexer

  // ----- atoms

  predicate IsDigit(c: char) {
    '0' <= c <= '9'
  }

  /** Digits with single underscores between them. */
  predicate IsNumeral(s: string) {
    s != "" && IsDigit(s[|s| - 1]) && (|s| == 1 || IsNumeral(s[..|s| - 1])
                                       || (s[|s| - 2] == '_' && IsNumeral(s[..|s| - 2])))
  }

  function NumeralValue(s: string): int {
    if s == "" then 0
    else if IsDigit(s[|s| - 1]) then 10 * NumeralValue(s[..|s| - 1]) + (s[|s| - 1] as int - '0' as int)
    else NumeralValue(s[..|s| - 1])
  }

  /** `int(raw)` on an ASCII text, `None` for a `ValueError`. */
  function IntOf(raw: string): Option<int> {
    if raw != "" && (raw[0] == '-' || raw[0] == '+') then
      if IsNumeral(raw[1..]) then Some(if raw[0] == '-' then -NumeralValue(raw[1..]) else NumeralValue(raw[1..]))
      else None
    else if IsNumeral(raw) then Some(NumeralValue(raw)) else None
  }

  /** Python's `int` and `float` on a text, `None` for a `ValueError`, and the text of a float. */
  datatype Numbers = Numbers(intOf: string -> Option<int>, floatOf: string -> Option<real>, show: real -> string)

  /** The value of an atom. */
  function AtomValue(numbers: Numbers, raw: string): Value {
    if '.' in raw then
      match numbers.floatOf(raw)
      case Some(r) => Flt(r)
      case None => Sym(raw)
    else
      match numbers.intOf(raw)
      case Some(n) => Int(n)
      case None => Sym(raw)
  }

  /** `_parse_atom` */
  function ParseAtom(numbers: Numbers, token: Token): Node {
    Atom(AtomValue(numbers, token.value), Some(token.location))
  }

  // ----- flattening: what a forest looks like as a stream

  datatype Lexeme = Open(at: Option<Location>) | Close | Leaf(value: Value, at: Option<Location>)

  function Flatten(nodes: seq<Node>): seq<Lexeme>
    decreases nodes, 0
  {
    if nodes == [] then [] else FlattenNode(nodes[0]) + Flatten(nodes[1..])
  }

  function FlattenNode(node: Node): (r: seq<Lexeme>)
    ensures r != []
    decreases node, 1
  {
    match node
    case Atom(value, loc) => [Leaf(value, loc)]
    case List(items, loc) => [Open(loc)] + Flatten(items) + [Close]
  }

  /** The tokens as such a stream. */
  function LexemeOf(numbers: Numbers, token: Token): Lexeme {
    match token.kind
    case LPAREN => Open(Some(token.location))
    case RPAREN => Close
    case _ => Leaf(AtomValue(numbers, token.value), Some(token.location))
  }

  function Stream(numbers: Numbers, tokens: seq<Token>): seq<Lexeme> {
    seq(|tokens|, i requires 0 <= i < |tokens| => LexemeOf(numbers, tokens[i]))
  }

  lemma {:induction false} FlattenAppend(a: seq<Node>, b: seq<Node>)
    ensures Flatten(a + b) == Flatten(a) + Flatten(b)
  {
    if a == [] {
      assert a + b == b;
    } else {
      FlattenAppend(a[1..], b);
      assert (a + b)[1..] == a[1..] + b && (a + b)[0] == a[0];
      var head, tail, rest := FlattenNode(a[0]), Flatten(a[1..]), Flatten(b);
      assert Flatten(a + b) == head + (tail + rest) == (head + tail) + rest;
    }
  }

  lemma FlattenSnoc(nodes: seq<Node>, node: Node)
    ensures Flatten(nodes + [node]) == Flatten(nodes) + FlattenNode(node)
  {
    FlattenAppend(nodes, [node]);
    assert [node][1..] == [];
    assert Flatten([node]) == FlattenNode(node);
  }

  ghost predicate EndsForest(s: seq<Lexeme>) {
    s == [] || s[0] == Close
  }

  /** A stream is the flattening of at most one forest: where one flattening ends, so does the other. */
  lemma {:induction false} FlattenInjective(f: seq<Node>, g: seq<Node>, x: seq<Lexeme>, y: seq<Lexeme>)
    requires Flatten(f) + x == Flatten(g) + y && EndsForest(x) && EndsForest(y)
    ensures f == g && x == y
    decreases Size(f)
  {
    if f == [] || g == [] {
      FlattenHead(f);
      FlattenHead(g);
      assert f == [] ==> Flatten(f) + x == x;
      assert g == [] ==> Flatten(g) + y == y;
    } else {
      var fx, gy := Flatten(f[1..]) + x, Flatten(g[1..]) + y;
      assert Flatten(f) + x == FlattenNode(f[0]) + fx;
      assert Flatten(g) + y == FlattenNode(g[0]) + gy;
      assert (FlattenNode(f[0]) + fx)[0] == FlattenNode(f[0])[0] == FlattenNode(g[0])[0];
      assert Size(f) == NodeSize(f[0]) + Size(f[1..]);
      if f[0].List? {
        assert NodeSize(f[0]) == 1 + Size(f[0].items);
        ListFirst(f[0], fx);
        ListFirst(g[0], gy);
        DropFirst(Open(f[0].loc), Flatten(f[0].items) + ([Close] + fx), Open(g[0].loc),
                  Flatten(g[0].items) + ([Close] + gy));
        FlattenInjective(f[0].items, g[0].items, [Close] + fx, [Close] + gy);
        DropFirst(Close, fx, Close, gy);
      } else {
        DropFirst(Leaf(f[0].value, f[0].loc), fx, Leaf(g[0].value, g[0].loc), gy);
      }
      FlattenInjective(f[1..], g[1..], x, y);
      assert f == [f[0]] + f[1..] == [g[0]] + g[1..] == g;
    }
  }

  lemma ListFirst(node: Node, rest: seq<Lexeme>)
    requires node.List?
    ensures FlattenNode(node) + rest == [Open(node.loc)] + (Flatten(node.items) + ([Close] + rest))
  {}

  lemma DropFirst(a: Lexeme, s: seq<Lexeme>, b: Lexeme, t: seq<Lexeme>)
    requires [a] + s == [b] + t
    ensures a == b && s == t
  {
    assert s == ([a] + s)[1..] == ([b] + t)[1..] == t;
  }

  lemma FlattenHead(nodes: seq<Node>)
    ensures nodes == [] <==> Flatten(nodes) == []
    ensures nodes != [] ==> Flatten(nodes)[0] != Close
  {
    if nodes != [] { assert Flatten(nodes)[0] == FlattenNode(nodes[0])[0]; }
  }

  // ----- nesting

  function Delta(kind: Kind): int {
    match kind
    case LPAREN => 1
    case RPAREN => -1
    case _ => 0
  }

  /** How many more parentheses the first `i` tokens open than they close. */
  function Depth(tokens: seq<Token>, i: nat): int
    requires i <= |tokens|
  {
    if i == 0 then 0 else Depth(tokens, i - 1) + Delta(tokens[i - 1].kind)
  }

  /** No prefix of the first `n` tokens closes more than it opened. */
  ghost predicate NeverNegative(tokens: seq<Token>, n: nat)
    requires n <= |tokens|
  {
    forall i: nat :: i <= n ==> Depth(tokens, i) >= 0
  }

  ghost predicate Balanced(tokens: seq<Token>) {
    NeverNegative(tokens, |tokens|) && Depth(tokens, |tokens|) == 0
  }

  /** The ')' at `i` is the first that closes nothing. */
  ghost predicate FirstUnmatched(tokens: seq<Token>, i: nat) {
    i < |tokens| && NeverNegative(tokens, i) && Depth(tokens, i + 1) < 0
  }

  /** The '(' at `i` is not closed: what follows never gets back to its depth. */
  ghost predicate Unclosed(tokens: seq<Token>, i: nat) {
    i < |tokens| && tokens[i].kind == LPAREN
    && forall j: nat :: i < j <= |tokens| ==> Depth(tokens, j) > Depth(tokens, i)
  }

  // ----- the parser

  /** What the parser has read, as a stream: the finished items, then each open list with its content. */
  function Held(items: seq<Node>, stack: seq<seq<Node>>, locations: seq<Location>): seq<Lexeme>
    requires |stack| == |locations|
  {
    if stack == [] then Flatten(items) else
      Held(items, stack[..|stack| - 1], locations[..|stack| - 1])
      + [Open(Some(locations[|stack| - 1]))] + Flatten(stack[|stack| - 1])
  }

  /** Each open list was opened by a token that nothing has closed since. */
  ghost predicate OpenedBy(tokens: seq<Token>, n: nat, opens: seq<nat>, locations: seq<Location>)
    requires n <= |tokens|
  {
    && |opens| == |locations| == Depth(tokens, n) && NeverNegative(tokens, n)
    && forall k :: 0 <= k < |opens| ==>
         && opens[k] < n && tokens[opens[k]].kind == LPAREN && tokens[opens[k]].location == locations[k]
         && Depth(tokens, opens[k]) == k && (forall j: nat :: opens[k] < j <= n ==> Depth(tokens, j) > k)
  }

  lemma StepOpened(tokens: seq<Token>, n: nat, opens: seq<nat>, locations: seq<Location>)
    requires n < |tokens| && OpenedBy(tokens, n, opens, locations)
    ensures tokens[n].kind == LPAREN ==> OpenedBy(tokens, n + 1, opens + [n], locations + [tokens[n].location])
    ensures tokens[n].kind == RPAREN && opens == [] ==> FirstUnmatched(tokens, n)
    ensures tokens[n].kind == RPAREN && opens != [] ==>
              OpenedBy(tokens, n + 1, opens[..|opens| - 1], locations[..|opens| - 1])
    ensures tokens[n].kind == ATOM ==> OpenedBy(tokens, n + 1, opens, locations)
  {
    assert Depth(tokens, n + 1) == Depth(tokens, n) + Delta(tokens[n].kind);
  }

  /** At the end, the innermost open list is the innermost unclosed '('. */
  lemma InnermostUnclosed(tokens: seq<Token>, opens: seq<nat>, locations: seq<Location>)
    requires OpenedBy(tokens, |tokens|, opens, locations) && opens != []
    ensures var i := opens[|opens| - 1]; Unclosed(tokens, i) && forall j: nat :: Unclosed(tokens, j) ==> j <= i
  {
    var i := opens[|opens| - 1];
    forall j: nat | Unclosed(tokens, j) ensures j <= i {
      assert Depth(tokens, |tokens|) > Depth(tokens, j);
    }
  }

  /** The finished node goes to the innermost open list, or to the items. */
  function Placed(items: seq<Node>, stack: seq<seq<Node>>, node: Node): (seq<Node>, seq<seq<Node>>) {
    if stack == [] then (items + [node], stack)
    else (items, stack[|stack| - 1 := stack[|stack| - 1] + [node]])
  }

  /** The two lines with which `parse_program` appends a node. */
  method Place(items: seq<Node>, stack: seq<seq<Node>>, node: Node) returns (items': seq<Node>, stack': seq<seq<Node>>)
    ensures (items', stack') == Placed(items, stack, node)
  {
    items', stack' := items, stack;
    if stack != [] {
      stack' := stack[|stack| - 1 := stack[|stack| - 1] + [node]];
    } else {
      items' := items + [node];
    }
  }

  lemma PlacedHeld(items: seq<Node>, stack: seq<seq<Node>>, node: Node, locations: seq<Location>)
    requires |stack| == |locations|
    ensures var (items', stack') := Placed(items, stack, node);
            Held(items', stack', locations) == Held(items, stack, locations) + FlattenNode(node)
  {
    if stack != [] {
      var top := |stack| - 1;
      FlattenSnoc(stack[top], node);
      var stack' := stack[top := stack[top] + [node]];
      assert stack'[..top] == stack[..top];
      var below, content := Held(items, stack[..top], locations[..top]), Flatten(stack[top]);
      assert below + [Open(Some(locations[top]))] + (content + FlattenNode(node))
             == below + [Open(Some(locations[top]))] + content + FlattenNode(node);
    } else {
      FlattenSnoc(items, node);
    }
  }

  lemma OpenedHeld(items: seq<Node>, stack: seq<seq<Node>>, locations: seq<Location>, at: Location)
    requires |stack| == |locations|
    ensures Held(items, stack + [[]], locations + [at]) == Held(items, stack, locations) + [Open(Some(at))]
  {
    assert (stack + [[]])[..|stack|] == stack && (locations + [at])[..|stack|] == locations;
  }

  /** Closing a list turns what was held of it into the flattening of its node. */
  lemma ClosedHeld(items: seq<Node>, stack: seq<seq<Node>>, locations: seq<Location>)
    requires |stack| == |locations| > 0
    ensures var top := |stack| - 1;
            Held(items, stack[..top], locations[..top]) + FlattenNode(List(stack[top], Some(locations[top])))
            == Held(items, stack, locations) + [Close]
  {
    var top := |stack| - 1;
    var below, open, content :=
      Held(items, stack[..top], locations[..top]), [Open(Some(locations[top]))], Flatten(stack[top]);
    assert below + (open + content + [Close]) == below + open + content + [Close];
  }

  /** What the parser's loop keeps after `n` tokens. */
  ghost predicate Parsing(numbers: Numbers, tokens: seq<Token>, n: nat, items: seq<Node>, stack: seq<seq<Node>>,
                          locations: seq<Location>, opens: seq<nat>)
  {
    && n <= |tokens| && |stack| == |locations| && OpenedBy(tokens, n, opens, locations)
    && Held(items, stack, locations) == Stream(numbers, tokens)[..n]
  }

  /** The loop body: pushes a list, pops one into its parent, or appends an atom; `false` for a ')' that
      closes nothing. */
  method TakeToken(numbers: Numbers, tokens: seq<Token>, n: nat, items: seq<Node>, stack: seq<seq<Node>>,
                   locations: seq<Location>, ghost opens: seq<nat>)
    returns (ok: bool, items': seq<Node>, stack': seq<seq<Node>>, locations': seq<Location>, ghost opens': seq<nat>)
    requires n < |tokens| && tokens[n].kind in {LPAREN, RPAREN, ATOM}
    requires Parsing(numbers, tokens, n, items, stack, locations, opens)
    ensures ok ==> Parsing(numbers, tokens, n + 1, items', stack', locations', opens')
    ensures !ok ==> FirstUnmatched(tokens, n)
  {
    ok, items', stack', locations', opens' := true, items, stack, locations, opens;
    var token := tokens[n];
    ghost var stream := Stream(numbers, tokens);
    assert stream[..n + 1] == stream[..n] + [LexemeOf(numbers, token)];
    StepOpened(tokens, n, opens, locations);
    if token.kind == LPAREN {
      OpenedHeld(items, stack, locations, token.location);
      stack', locations', opens' := stack + [[]], locations + [token.location], opens + [n];
    } else if token.kind == RPAREN {
      if stack == [] {
        ok := false;
      } else {
        var top := |stack| - 1;
        var node := List(stack[top], Some(locations[top]));
        ClosedHeld(items, stack, locations);
        stack', locations', opens' := stack[..top], locations[..top], opens[..top];
        PlacedHeld(items, stack', node, locations');
        items', stack' := Place(items, stack', node);
      }
    } else {
      var node := ParseAtom(numbers, token);
      PlacedHeld(items, stack, node, locations);
      items', stack' := Place(items, stack, node);
    }
  }

  /** The right error for unbalanced tokens: the first ')' that closes nothing, or else the innermost
      unclosed '('. */
  ghost predicate Reports(error: ParseError, tokens: seq<Token>) {
    if NeverNegative(tokens, |tokens|) then
      exists i: nat :: && Unclosed(tokens, i) && (forall j: nat :: Unclosed(tokens, j) ==> j <= i)
                       && error == ParseError("Unclosed '('", tokens[i].location)
    else
      exists i: nat :: FirstUnmatched(tokens, i) && error == ParseError("Unexpected ')'", tokens[i].location)
  }

  /** The parser, on the tokens of a program: succeeds exactly on balanced streams, with the forest whose
      flattening they are, and otherwise reports what is unbalanced. */
  method ParseTokens(numbers: Numbers, tokens: seq<Token>) returns (r: Result<seq<Node>>)
    requires forall t :: t in tokens ==> t.kind in {LPAREN, RPAREN, ATOM}
    ensures r.Ok? <==> Balanced(tokens)
    ensures r.Ok? ==> Flatten(r.value) == Stream(numbers, tokens)
    ensures r.Err? ==> Reports(r.error, tokens)
  {
    var items: seq<Node> := [];
    var stack: seq<seq<Node>> := [];
    var locations: seq<Location> := [];
    ghost var opens: seq<nat> := [];
    for n := 0 to |tokens|
      invariant Parsing(numbers, tokens, n, items, stack, locations, opens)
    {
      assert tokens[n] in tokens;
      var ok;
      ok, items, stack, locations, opens := TakeToken(numbers, tokens, n, items, stack, locations, opens);
      if !ok { return Err(ParseError("Unexpected ')'", tokens[n].location)); }
    }
    assert Stream(numbers, tokens)[..|tokens|] == Stream(numbers, tokens);
    if stack != [] {
      InnermostUnclosed(tokens, opens, locations);
      return Err(ParseError("Unclosed '('", locations[|stack| - 1]));
    }
    r := Ok(items);
  }

  lemma {:induction false} TokenKinds(text: string, p: nat)
    requires p <= |text|
    ensures forall t :: t in TokensFrom(text, p) ==> t.kind in {LPAREN, RPAREN, ATOM}
    decreases |text| - p
  {
    if p < |text| {
      TokenKinds(text, p + |MatchAt(text, p)|);
    }
  }

  /** `parse_program` */
  method ParseProgram(numbers: Numbers, text: string) returns (r: Result<seq<Node>>)
    ensures r.Ok? <==> Balanced(Tokens(text))
    ensures r.Ok? ==> Flatten(r.value) == Stream(numbers, Tokens(text))
    ensures r.Err? ==> Reports(r.error, Tokens(text))
  {
    var tokens := Tokenize(text);
    TokenKinds(text, 0);
    match tokens {
      case Err(error) => r := Err(error);
      case Ok(found) => r := ParseTokens(numbers, found);
    }
  }

  /** A program parses to at most one forest, locations included. */
  lemma OneForest(f: seq<Node>, g: seq<Node>)
    requires Flatten(f) == Flatten(g)
    ensures f == g
  {
    assert Flatten(f) + [] == Flatten(g) + [];
    FlattenInjective(f, g, [], []);
  }

  // ----- flattenings are balanced

  function StreamDelta(x: Lexeme): int {
    match x
    case Open(_) => 1
    case Close => -1
    case Leaf(_, _) => 0
  }

  function StreamDepth(s: seq<Lexeme>): int {
    if s == [] then 0 else StreamDepth(s[..|s| - 1]) + StreamDelta(s[|s| - 1])
  }

  lemma {:induction false} StreamDepthAppend(s: seq<Lexeme>, t: seq<Lexeme>)
    ensures StreamDepth(s + t) == StreamDepth(s) + StreamDepth(t)
  {
    if t == [] {
      assert s + t == s;
    } else {
      StreamDepthAppend(s, t[..|t| - 1]);
      assert (s + t)[..|s + t| - 1] == s + t[..|t| - 1];
    }
  }

  ghost predicate StreamBalanced(s: seq<Lexeme>) {
    StreamDepth(s) == 0 && forall i :: 0 <= i <= |s| ==> StreamDepth(s[..i]) >= 0
  }

  lemma BalancedAppend(s: seq<Lexeme>, t: seq<Lexeme>)
    requires StreamBalanced(s) && StreamBalanced(t)
    ensures StreamBalanced(s + t)
  {
    StreamDepthAppend(s, t);
    forall i | 0 <= i <= |s + t| ensures StreamDepth((s + t)[..i]) >= 0 {
      if i <= |s| {
        assert (s + t)[..i] == s[..i];
      } else {
        assert (s + t)[..i] == s + t[..i - |s|];
        StreamDepthAppend(s, t[..i - |s|]);
      }
    }
  }

  lemma BalancedList(s: seq<Lexeme>, at: Option<Location>)
    requires StreamBalanced(s)
    ensures StreamBalanced([Open(at)] + s + [Close])
  {
    var open, close: seq<Lexeme> := [Open(at)], [Close];
    assert open[..0] == [] && close[..0] == [];
    assert StreamDepth(open) == 1 && StreamDepth(close) == -1;
    StreamDepthAppend(open, s);
    StreamDepthAppend(open + s, close);
    forall i | 0 <= i <= |s| + 2 ensures StreamDepth((open + s + close)[..i]) >= 0 {
      if i == |s| + 2 {
        assert (open + s + close)[..i] == open + s + close;
      } else if i > 0 {
        assert (open + s + close)[..i] == open + s[..i - 1];
        StreamDepthAppend(open, s[..i - 1]);
      }
    }
  }

  lemma {:induction false} FlattenBalanced(nodes: seq<Node>)
    ensures StreamBalanced(Flatten(nodes))
    decreases nodes, 0
  {
    if nodes != [] {
      match nodes[0] {
        case Atom(value, loc) =>
          var leaf := [Leaf(value, loc)];
          assert leaf[..0] == [] && leaf[..1] == leaf;
          assert StreamDepth(leaf) == 0;
        case List(items, loc) =>
          FlattenBalanced(items);
          BalancedList(Flatten(items), loc);
      }
      FlattenBalanced(nodes[1..]);
      BalancedAppend(FlattenNode(nodes[0]), Flatten(nodes[1..]));
    }
  }

  // ----- forgetting locations

  function Erase(nodes: seq<Node>): (r: seq<Node>)
    ensures |r| == |nodes|
    decreases nodes, 0
  {
    if nodes == [] then [] else [EraseNode(nodes[0])] + Erase(nodes[1..])
  }

  function EraseNode(node: Node): Node
    decreases node, 1
  {
    match node
    case Atom(value, _) => Atom(value, None)
    case List(items, _) => List(Erase(items), None)
  }

  function EraseLexeme(x: Lexeme): Lexeme {
    match x
    case Open(_) => Open(None)
    case Close => Close
    case Leaf(value, _) => Leaf(value, None)
  }

  function EraseStream(s: seq<Lexeme>): seq<Lexeme> {
    seq(|s|, i requires 0 <= i < |s| => EraseLexeme(s[i]))
  }

  lemma {:induction false} FlattenErase(nodes: seq<Node>)
    ensures Flatten(Erase(nodes)) == EraseStream(Flatten(nodes))
    decreases nodes, 0
  {
    if nodes != [] {
      FlattenErase(nodes[1..]);
      if nodes[0].List? { FlattenErase(nodes[0].items); }
      assert FlattenNode(EraseNode(nodes[0])) == EraseStream(FlattenNode(nodes[0]));
      assert Erase(nodes)[1..] == Erase(nodes[1..]);
    }
  }

  /** Tokens whose stream is, up to locations, the flattening of a forest are balanced. */
  lemma TokensOfForestBalanced(numbers: Numbers, tokens: seq<Token>, nodes: seq<Node>)
    requires forall t :: t in tokens ==> t.kind in {LPAREN, RPAREN, ATOM}
    requires EraseStream(Stream(numbers, tokens)) == Flatten(nodes)
    ensures Balanced(tokens)
  {
    FlattenBalanced(nodes);
    forall i: nat | i <= |tokens| ensures Depth(tokens, i) == StreamDepth(Flatten(nodes)[..i]) {
      DepthOfStream(numbers, tokens, Flatten(nodes), i);
    }
    assert Flatten(nodes)[..|tokens|] == Flatten(nodes);
  }

  lemma {:induction false} DepthOfStream(numbers: Numbers, tokens: seq<Token>, s: seq<Lexeme>, i: nat)
    requires forall t :: t in tokens ==> t.kind in {LPAREN, RPAREN, ATOM}
    requires EraseStream(Stream(numbers, tokens)) == s && i <= |tokens|
    ensures Depth(tokens, i) == StreamDepth(s[..i])
  {
    if i > 0 {
      DepthOfStream(numbers, tokens, s, i - 1);
      assert s[..i][..i - 1] == s[..i - 1];
      assert s[i - 1] == EraseLexeme(LexemeOf(numbers, tokens[i - 1]));
      assert tokens[i - 1] in tokens;
    }
  }

  // ----- printing

  function Digit(d: int): char
    requires 0 <= d < 10
  {
    (d + '0' as int) as char
  }

  function Digits(n: nat): string {
    if n < 10 then [Digit(n)] else Digits(n / 10) + [Digit(n % 10)]
  }

  /** The canonical decimal numeral. */
  function Decimal(n: int): string {
    if n < 0 then "-" + Digits(-n) else Digits(n)
  }

  lemma {:induction false} DigitsNumeral(n: nat)
    ensures Digits(n) != "" && forall i :: 0 <= i < |Digits(n)| ==> IsDigit(Digits(n)[i])
    ensures IsNumeral(Digits(n)) && NumeralValue(Digits(n)) == n
  {
    if n >= 10 {
      DigitsNumeral(n / 10);
      assert Digits(n)[..|Digits(n)| - 1] == Digits(n / 10);
    } else {
      assert Digits(n)[..0] == "";
    }
  }

  lemma DigitsAreAtom(s: string)
    requires s != "" && forall i :: 0 <= i < |s| ==> IsDigit(s[i])
    ensures AtomText(s) && AtomText("-" + s) && '.' !in s && '.' !in "-" + s && s[0] != '-' && s[0] != '+'
  {
    assert IsDigit(s[0]);
    var t := "-" + s;
    forall i | 0 <= i < |t| ensures IsAtomChar(t[i]) && t[i] != '.' {
      if i > 0 { assert t[i] == s[i - 1]; }
    }
    forall i | 0 <= i < |s| ensures IsAtomChar(s[i]) && s[i] != '.' { assert IsDigit(s[i]); }
  }

  lemma DecimalParses(n: int)
    ensures IntOf(Decimal(n)) == Some(n) && AtomText(Decimal(n)) && '.' !in Decimal(n)
  {
    var m := if n < 0 then -n else n;
    DigitsNumeral(m);
    DigitsAreAtom(Digits(m));
    if n < 0 { assert Decimal(n)[1..] == Digits(m); }
  }

  /** Atoms whose text is read back as the same atom, and lists of these. For symbols that means that the text
      is no number; for floats, that their text has a dot and is read back. */
  ghost predicate Printable(numbers: Numbers, nodes: seq<Node>)
    decreases nodes, 0
  {
    nodes != [] ==> PrintableNode(numbers, nodes[0]) && Printable(numbers, nodes[1..])
  }

  ghost predicate PrintableNode(numbers: Numbers, node: Node)
    decreases node, 1
  {
    match node
    case Atom(Sym(name), _) => AtomText(name) && AtomValue(numbers, name) == Sym(name)
    case Atom(Int(n), _) => numbers.intOf(Decimal(n)) == Some(n)
    case Atom(Flt(r), _) => AtomText(numbers.show(r)) && AtomValue(numbers, numbers.show(r)) == Flt(r)
    case List(items, _) => Printable(numbers, items)
  }

  function PrintValue(numbers: Numbers, value: Value): string {
    match value
    case Sym(name) => name
    case Int(n) => Decimal(n)
    case Flt(r) => numbers.show(r)
  }

  /** Nodes separated by single spaces. */
  function Print(numbers: Numbers, nodes: seq<Node>): string
    decreases nodes, 0
  {
    if nodes == [] then ""
    else PrintNode(numbers, nodes[0]) + (if |nodes| == 1 then "" else " " + Print(numbers, nodes[1..]))
  }

  function PrintNode(numbers: Numbers, node: Node): string
    decreases node, 1
  {
    match node
    case Atom(value, _) => PrintValue(numbers, value)
    case List(items, _) => "(" + Print(numbers, items) + ")"
  }

  /** The values of the tokens of a printed forest. */
  function RawTokens(numbers: Numbers, nodes: seq<Node>): seq<(Kind, string)>
    decreases nodes, 0
  {
    if nodes == [] then [] else RawTokensOf(numbers, nodes[0]) + RawTokens(numbers, nodes[1..])
  }

  function RawTokensOf(numbers: Numbers, node: Node): seq<(Kind, string)>
    decreases node, 1
  {
    match node
    case Atom(value, _) => [(ATOM, PrintValue(numbers, value))]
    case List(items, _) => [(LPAREN, "(")] + RawTokens(numbers, items) + [(RPAREN, ")")]
  }

  lemma PrintedHead(numbers: Numbers, node: Node)
    requires PrintableNode(numbers, node)
    ensures PrintNode(numbers, node) != "" && !IsSpace(PrintNode(numbers, node)[0])
    ensures node.Atom? ==> AtomText(PrintNode(numbers, node))
  {
    if node.Atom? && node.value.Int? { DecimalParses(node.value.n); }
  }

  lemma {:induction false} LexNode(numbers: Numbers, node: Node, rest: string)
    requires PrintableNode(numbers, node) && (rest == "" || rest[0] == ')' || rest[0] == ' ')
    ensures Lexed(PrintNode(numbers, node) + rest) == RawTokensOf(numbers, node) + Lexed(rest)
    decreases node, 1
  {
    PrintedHead(numbers, node);
    match node
    case Atom(value, _) =>
      LexAtom(PrintValue(numbers, value), rest);
    case List(items, _) =>
      LexForest(numbers, items, ")" + rest);
      LexParens(rest);
      LexListed(Print(numbers, items), RawTokens(numbers, items), rest);
  }

  lemma Regroup<T>(a: seq<T>, b: seq<T>, c: seq<T>, d: seq<T>)
    ensures a + (b + (c + d)) == a + b + c + d
    ensures (a + (b + c)) + d == a + (b + (c + d))
    ensures (a + b) + c == a + (b + c)
  {}

  lemma LexListed(content: string, raw: seq<(Kind, string)>, rest: string)
    requires Lexed(content + (")" + rest)) == raw + Lexed(")" + rest)
    ensures Lexed("(" + content + ")" + rest) == [(LPAREN, "(")] + raw + [(RPAREN, ")")] + Lexed(rest)
  {
    Regroup("(", content, ")", rest);
    LexParens(content + (")" + rest));
    LexParens(rest);
    Regroup([(LPAREN, "(")], raw, [(RPAREN, ")")], Lexed(rest));
  }

  lemma {:induction false} LexForest(numbers: Numbers, nodes: seq<Node>, rest: string)
    requires Printable(numbers, nodes) && (rest == "" || rest[0] == ')')
    ensures Lexed(Print(numbers, nodes) + rest) == RawTokens(numbers, nodes) + Lexed(rest)
    decreases nodes, 0
  {
    if nodes == [] {
      assert Print(numbers, nodes) + rest == rest;
    } else if |nodes| == 1 {
      assert RawTokens(numbers, nodes) == RawTokensOf(numbers, nodes[0]) + [] == RawTokensOf(numbers, nodes[0]);
      assert Print(numbers, nodes) == PrintNode(numbers, nodes[0]) + "" == PrintNode(numbers, nodes[0]);
      LexNode(numbers, nodes[0], rest);
    } else {
      LexNode(numbers, nodes[0], " " + (Print(numbers, nodes[1..]) + rest));
      LexForest(numbers, nodes[1..], rest);
      PrintedHead(numbers, nodes[1]);
      LexSeparated(PrintNode(numbers, nodes[0]), Print(numbers, nodes[1..]), rest, RawTokensOf(numbers, nodes[0]),
                   RawTokens(numbers, nodes[1..]));
    }
  }

  /** A space between two printed parts separates their tokens. */
  lemma LexSeparated(first: string, others: string, rest: string, raw: seq<(Kind, string)>, raws: seq<(Kind, string)>)
    requires others != "" && !IsSpace(others[0])
    requires Lexed(first + (" " + (others + rest))) == raw + Lexed(" " + (others + rest))
    requires Lexed(others + rest) == raws + Lexed(rest)
    ensures Lexed(first + (" " + others) + rest) == raw + raws + Lexed(rest)
  {
    assert (others + rest)[0] == others[0];
    LexSpace(others + rest);
    Regroup(first, " ", others, rest);
    Regroup(raw, raws, Lexed(rest), []);
  }

  function RawLexeme(numbers: Numbers, raw: (Kind, string)): Lexeme {
    match raw.0
    case LPAREN => Open(None)
    case RPAREN => Close
    case _ => Leaf(AtomValue(numbers, raw.1), None)
  }

  function RawStream(numbers: Numbers, raw: seq<(Kind, string)>): seq<Lexeme> {
    seq(|raw|, i requires 0 <= i < |raw| => RawLexeme(numbers, raw[i]))
  }

  /** Reading the raw tokens of a printed forest gives its flattening without locations. */
  lemma {:induction false} RawTokensRead(numbers: Numbers, nodes: seq<Node>)
    requires Printable(numbers, nodes)
    ensures RawStream(numbers, RawTokens(numbers, nodes)) == Flatten(Erase(nodes))
    decreases nodes, 0
  {
    if nodes != [] {
      RawTokensRead(numbers, nodes[1..]);
      assert Erase(nodes)[1..] == Erase(nodes[1..]);
      match nodes[0] {
        case Atom(value, _) =>
          if value.Int? { DecimalParses(value.n); }
        case List(items, _) =>
          RawTokensRead(numbers, items);
          RawListRead(numbers, RawTokens(numbers, items));
      }
      RawStreamAppend(numbers, RawTokensOf(numbers, nodes[0]), RawTokens(numbers, nodes[1..]));
    }
  }

  lemma RawStreamAppend(numbers: Numbers, a: seq<(Kind, string)>, b: seq<(Kind, string)>)
    ensures RawStream(numbers, a + b) == RawStream(numbers, a) + RawStream(numbers, b)
  {}

  lemma RawListRead(numbers: Numbers, content: seq<(Kind, string)>)
    ensures RawStream(numbers, [(LPAREN, "(")] + content + [(RPAREN, ")")])
            == [Open(None)] + RawStream(numbers, content) + [Close]
  {}

  /** The parse/print inverse: the printed form of every forest of symbols, integers and lists is accepted,
      and the only forest it can parse to is that forest, up to locations. */
  lemma PrintThenParse(numbers: Numbers, nodes: seq<Node>)
    requires Printable(numbers, nodes)
    ensures Balanced(Tokens(Print(numbers, nodes)))
    ensures forall r :: Flatten(r) == Stream(numbers, Tokens(Print(numbers, nodes))) ==> Erase(r) == Erase(nodes)
  {
    var text := Print(numbers, nodes);
    var tokens := Tokens(text);
    assert text + "" == text && text[0..] == text;
    LexForest(numbers, nodes, "");
    TokensAreLexed(text, 0);
    assert Lexed(text) == RawTokens(numbers, nodes) + [] == RawTokens(numbers, nodes);
    RawTokensRead(numbers, nodes);
    TokenKinds(text, 0);
    var stream := Stream(numbers, tokens);
    forall i | 0 <= i < |tokens| ensures EraseLexeme(stream[i]) == RawLexeme(numbers, Unplaced(tokens)[i]) {}
    assert EraseStream(stream) == RawStream(numbers, Unplaced(tokens)) == Flatten(Erase(nodes));
    TokensOfForestBalanced(numbers, tokens, Erase(nodes));
    forall r | Flatten(r) == stream ensures Erase(r) == Erase(nodes) {
      FlattenErase(r);
      OneForest(Erase(r), Erase(nodes));
    }
  }

  // ----- what parsing depends on

  /** Tokens of the same kinds and values. */
  ghost predicate Alike(a: seq<Token>, b: seq<Token>) {
    |a| == |b| && forall i :: 0 <= i < |a| ==> a[i].kind == b[i].kind && a[i].value == b[i].value
  }

  lemma UnplacedAlike(a: seq<Token>, b: seq<Token>)
    requires Unplaced(a) == Unplaced(b)
    ensures Alike(a, b)
  {
    assert |Unplaced(a)| == |a| && |Unplaced(b)| == |b|;
    forall i | 0 <= i < |a| ensures a[i].kind == b[i].kind && a[i].value == b[i].value {
      assert Unplaced(a)[i] == Unplaced(b)[i];
    }
  }

  lemma {:induction false} DepthAlike(a: seq<Token>, b: seq<Token>, i: nat)
    requires Alike(a, b) && i <= |a|
    ensures Depth(a, i) == Depth(b, i)
  {
    if i > 0 { DepthAlike(a, b, i - 1); }
  }

  /** Errors on corresponding tokens. */
  ghost predicate SameError(e: ParseError, a: seq<Token>, e': ParseError, b: seq<Token>) {
    e.message == e'.message
    && exists i :: 0 <= i < |a| && i < |b| && e.location == a[i].location && e'.location == b[i].location
  }

  lemma ReportsAlike(a: seq<Token>, b: seq<Token>, e: ParseError, e': ParseError)
    requires Alike(a, b) && Reports(e, a) && Reports(e', b)
    ensures SameError(e, a, e', b)
  {
    forall i: nat | i <= |a| ensures Depth(a, i) == Depth(b, i) { DepthAlike(a, b, i); }
    assert NeverNegative(a, |a|) <==> NeverNegative(b, |b|);
    if NeverNegative(a, |a|) {
      var i: nat :| && Unclosed(a, i) && (forall j: nat :: Unclosed(a, j) ==> j <= i)
                    && e == ParseError("Unclosed '('", a[i].location);
      var k: nat :| && Unclosed(b, k) && (forall j: nat :: Unclosed(b, j) ==> j <= k)
                    && e' == ParseError("Unclosed '('", b[k].location);
      assert Unclosed(b, i) && Unclosed(a, k);
    } else {
      var i: nat :| FirstUnmatched(a, i) && e == ParseError("Unexpected ')'", a[i].location);
      var k: nat :| FirstUnmatched(b, k) && e' == ParseError("Unexpected ')'", b[k].location);
      assert FirstUnmatched(b, i) && FirstUnmatched(a, k);
      assert i == k;
    }
  }

  /** Parsing depends on the kinds and values of the tokens alone: where they agree, so do success, the forest
      up to locations, and the error up to the place of its token. */
  lemma ParseAlike(numbers: Numbers, a: seq<Token>, b: seq<Token>)
    requires Alike(a, b)
    ensures Balanced(a) <==> Balanced(b)
    ensures forall f, g :: Flatten(f) == Stream(numbers, a) && Flatten(g) == Stream(numbers, b) ==> Erase(f) == Erase(g)
    ensures forall e, e' :: Reports(e, a) && Reports(e', b) ==> SameError(e, a, e', b)
  {
    forall i: nat | i <= |a| ensures Depth(a, i) == Depth(b, i) { DepthAlike(a, b, i); }
    forall f, g | Flatten(f) == Stream(numbers, a) && Flatten(g) == Stream(numbers, b) ensures Erase(f) == Erase(g) {
      FlattenErase(f);
      FlattenErase(g);
      assert EraseStream(Stream(numbers, a)) == EraseStream(Stream(numbers, b));
      OneForest(Erase(f), Erase(g));
    }
    forall e, e' | Reports(e, a) && Reports(e', b) ensures SameError(e, a, e', b) { ReportsAlike(a, b, e, e'); }
  }

  /** So a comment inserted at the end of any line changes neither success, nor the forest up to locations, nor
      the error up to the place of its token. */
  lemma CommentsDoNotMatter(numbers: Numbers, before: string, c: string, rest: string)
    requires '\n' !in c && (rest == "" || rest[0] == '\n')
    ensures var a, b := Tokens(before + (";" + c + rest)), Tokens(before + rest);
            && (Balanced(a) <==> Balanced(b))
            && (forall f, g ::
                  Flatten(f) == Stream(numbers, a) && Flatten(g) == Stream(numbers, b) ==> Erase(f) == Erase(g))
            && (forall e, e' :: Reports(e, a) && Reports(e', b) ==> SameError(e, a, e', b))
  {
    CommentChangesNoToken(before, c, rest);
    UnplacedAlike(Tokens(before + (";" + c + rest)), Tokens(before + rest));
    ParseAlike(numbers, Tokens(before + (";" + c + rest)), Tokens(before + rest));
  }

  /** The value of an atom: a float if the text has a dot and is one, an integer if it has none and is one, and
      the symbol of this text otherwise. */
  lemma AtomMeans(numbers: Numbers, raw: string)
    ensures forall r :: AtomValue(numbers, raw) == Flt(r) <==> '.' in raw && numbers.floatOf(raw) == Some(r)
    ensures forall n :: AtomValue(numbers, raw) == Int(n) <==> '.' !in raw && numbers.intOf(raw) == Some(n)
    ensures forall s :: AtomValue(numbers, raw) == Sym(s) <==>
                          s == raw && if '.' in raw then numbers.floatOf(raw) == None else numbers.intOf(raw) == None
  {}

  /** A lexeme as a token is read: parentheses open and close, an atom has its value and location. */
  predicate Reads(numbers: Numbers, token: Token, x: Lexeme) {
    match token.kind
    case LPAREN => x == Open(Some(token.location))
    case RPAREN => x == Close
    case ATOM => x.Leaf? && x.at == Some(token.location) && x.value == AtomValue(numbers, token.value)
    case _ => false
  }

  /** A forest with the stream of some tokens has exactly their parentheses and atoms, in order. */
  lemma ForestReads(numbers: Numbers, tokens: seq<Token>, f: seq<Node>)
    requires Flatten(f) == Stream(numbers, tokens) && forall t :: t in tokens ==> t.kind in {LPAREN, RPAREN, ATOM}
    ensures |Flatten(f)| == |tokens| && forall i :: 0 <= i < |tokens| ==> Reads(numbers, tokens[i], Flatten(f)[i])
  {
    forall i | 0 <= i < |tokens| ensures Reads(numbers, tokens[i], Flatten(f)[i]) { assert tokens[i] in tokens; }
  }
}
