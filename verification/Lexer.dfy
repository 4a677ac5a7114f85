/** The tokenizer of `src/hpl/emergence/dsl/parser.py`: `TOKEN_RE` and `_tokenize`. */
module Lexer {
  import opened Text
  import opened Ast

  datatype Kind = WS | COMMENT | LPAREN | RPAREN | ATOM

  datatype Token = Token(kind: Kind, value: string, location: Location)

  datatype ParseError = ParseError(message: string, location: Location)

  datatype Result<T> = Ok(value: T) | Err(error: ParseError)

  /** `[^\s();]` */
  predicate IsAtomChar(c: char) {
    !IsSpace(c) && c != '(' && c != ')' && c != ';'
  }

  predicate NotNewline(c: char) {
    c != '\n'
  }

  /** How many leading characters are of a class. */
  function RunLength(s: string, member: char -> bool): (n: nat)
    ensures n <= |s|
  {
    if s != "" && member(s[0]) then 1 + RunLength(s[1..], member) else 0
  }

  /** The alternative of the regular expression that matches at the start of `s`, if any. */
  function MatchKind(s: string): Option<Kind>
    requires s != ""
  {
    if IsSpace(s[0]) then Some(WS)
    else if s[0] == ';' then Some(COMMENT)
    else if s[0] == '(' then Some(LPAREN)
    else if s[0] == ')' then Some(RPAREN)
    else if IsAtomChar(s[0]) then Some(ATOM)
    else None
  }

  /** The length of that match. */
  function MatchLength(s: string): (n: nat)
    requires s != "" && MatchKind(s).Some?
    ensures 1 <= n <= |s|
  {
    match MatchKind(s).value
    case WS => RunLength(s, IsSpace)
    case COMMENT => 1 + RunLength(s[1..], NotNewline)
    case LPAREN => 1
    case RPAREN => 1
    case ATOM => RunLength(s, IsAtomChar)
  }

  /** At every character some alternative matches. */
  lemma AlwaysMatches(s: string)
    requires s != ""
    ensures MatchKind(s).Some?
  {}

  /** `finditer`: the first position from `from` on where the expression matches, or the end of the text. */
  function Search(text: string, from: nat): (start: nat)
    requires from <= |text|
    ensures from <= start <= |text|
    ensures start < |text| ==> MatchKind(text[start..]).Some?
    decreases |text| - from
  {
    if from == |text| || MatchKind(text[from..]).Some? then from else Search(text, from + 1)
  }

  /** The matched pieces, one after the other. */
  function Pieces(s: string): seq<string>
    decreases |s|
  {
    if s == "" then [] else
      AlwaysMatches(s);
      [s[..MatchLength(s)]] + Pieces(s[MatchLength(s)..])
  }

  function Concat(pieces: seq<string>): string {
    if pieces == [] then "" else pieces[0] + Concat(pieces[1..])
  }

  /** The pieces tile the text without gap or overlap, and none is empty. */
  lemma {:induction false} PiecesTile(s: string)
    ensures Concat(Pieces(s)) == s && forall p :: p in Pieces(s) ==> p != ""
    decreases |s|
  {
    if s != "" {
      AlwaysMatches(s);
      var n := MatchLength(s);
      PiecesTile(s[n..]);
      assert s == s[..n] + s[n..];
    }
  }

  // ----- locations

  function Newlines(s: string): nat {
    if s == "" then 0 else Newlines(s[..|s| - 1]) + (if s[|s| - 1] == '\n' then 1 else 0)
  }

  /** What follows the last newline. */
  function LastLine(s: string): string {
    if s == "" || s[|s| - 1] == '\n' then "" else LastLine(s[..|s| - 1]) + [s[|s| - 1]]
  }

  /** Where a reader of the text finds the character after this prefix: one plus the newlines before it,
      and one plus the characters since the last newline. */
  function LocationAfter(prefix: string): Location {
    Location(1 + Newlines(prefix), 1 + |LastLine(prefix)|)
  }

  lemma {:induction false} LocationAppend(a: string, b: string)
    ensures Newlines(a + b) == Newlines(a) + Newlines(b)
    ensures |LastLine(a + b)| == if Newlines(b) > 0 then |LastLine(b)| else |LastLine(a)| + |b|
  {
    if b == "" {
      assert a + b == a;
    } else {
      LocationAppend(a, b[..|b| - 1]);
      assert (a + b)[..|a + b| - 1] == a + b[..|b| - 1];
    }
  }

  // ----- tokens

  /** White space and comments give no token. */
  function TokenOf(kind: Kind, value: string, location: Location): seq<Token> {
    if kind == WS || kind == COMMENT then [] else [Token(kind, value, location)]
  }

  /** The kind and the text of the match at `p`. */
  function KindAt(text: string, p: nat): Kind
    requires p < |text|
  {
    AlwaysMatches(text[p..]);
    MatchKind(text[p..]).value
  }

  function MatchAt(text: string, p: nat): (value: string)
    requires p < |text|
    ensures value != "" && value <= text[p..]
  {
    AlwaysMatches(text[p..]);
    text[p..][..MatchLength(text[p..])]
  }

  function TokenHere(text: string, p: nat): seq<Token>
    requires p < |text|
  {
    TokenOf(KindAt(text, p), MatchAt(text, p), LocationAfter(text[..p]))
  }

  /** The tokens from position `p` on, each with the location a reader finds it at. */
  function TokensFrom(text: string, p: nat): seq<Token>
    requires p <= |text|
    decreases |text| - p
  {
    if p == |text| then [] else TokenHere(text, p) + TokensFrom(text, p + |MatchAt(text, p)|)
  }

  function Tokens(text: string): seq<Token> {
    TokensFrom(text, 0)
  }

  /** `line` and `col` are where a reader finds position `p`. */
  ghost predicate Located(text: string, p: nat, line: int, col: int) {
    p <= |text| && Location(line, col) == LocationAfter(text[..p])
  }

  /** The line and column after a match, which starts at `p`. */
  method Advance(line: int, col: int, value: string, ghost text: string, ghost p: nat)
    returns (line': int, col': int)
    requires Located(text, p, line, col) && value <= text[p..]
    ensures Located(text, p + |value|, line', col')
  {
    line', col' := line, col;
    var newlineCount := Newlines(value);
    if newlineCount != 0 {
      line' := line + newlineCount;
      col' := |LastLine(value)| + 1;
    } else {
      col' := col + |value|;
    }
    LocationAppend(text[..p], value);
    assert text[..p] + value == text[..p + |value|];
  }

  /** The next match is right where the last one ended. */
  lemma NextMatch(text: string, p: nat)
    requires p < |text|
    ensures MatchKind(text[p..]) == Some(KindAt(text, p)) && Search(text, p) == p
    ensures text[p..][..MatchLength(text[p..])] == MatchAt(text, p)
  {
    AlwaysMatches(text[p..]);
  }

  /** Scanning has reached `p`, and these are the tokens before it. */
  ghost predicate Scanned(text: string, p: nat, tokens: seq<Token>) {
    p <= |text| && tokens + TokensFrom(text, p) == Tokens(text)
  }

  lemma StartScan(text: string)
    ensures Located(text, 0, 1, 1) && Scanned(text, 0, [])
  {
    assert text[..0] == "";
    assert [] + TokensFrom(text, 0) == TokensFrom(text, 0);
  }

  /** Taking one match more into the tokens scanned so far. */
  lemma ScanOne(text: string, p: nat, tokens: seq<Token>, line: int, col: int)
    requires Located(text, p, line, col) && Scanned(text, p, tokens) && p < |text|
    ensures Scanned(text, p + |MatchAt(text, p)|,
                    tokens + TokenOf(KindAt(text, p), MatchAt(text, p), Location(line, col)))
  {
    var here, rest := TokenHere(text, p), TokensFrom(text, p + |MatchAt(text, p)|);
    assert TokensFrom(text, p) == here + rest;
    assert tokens + (here + rest) == tokens + here + rest;
  }

  lemma EndScan(text: string, tokens: seq<Token>)
    requires Scanned(text, |text|, tokens)
    ensures tokens == Tokens(text)
  {
    assert TokensFrom(text, |text|) == [];
    assert tokens + [] == tokens;
  }

  /** The token, if any, that the branches of the tokenizer yield for a match. */
  method Yield(tokens: seq<Token>, kind: Kind, value: string, location: Location)
    returns (r: seq<Token>)
    ensures r == tokens + TokenOf(kind, value, location)
  {
    r := tokens;
    if kind == LPAREN {
      r := r + [Token(LPAREN, value, location)];
    } else if kind == RPAREN {
      r := r + [Token(RPAREN, value, location)];
    } else if kind == ATOM {
      r := r + [Token(ATOM, value, location)];
    }
  }

  /** The loop body of `_tokenize`, once the match is known to start at `pos`. */
  method TakeMatch(text: string, pos: nat, line: int, col: int, tokens: seq<Token>)
    returns (pos': nat, line': int, col': int, tokens': seq<Token>)
    requires pos < |text| && Located(text, pos, line, col) && Scanned(text, pos, tokens)
    ensures pos < pos' <= |text| && Located(text, pos', line', col') && Scanned(text, pos', tokens')
  {
    NextMatch(text, pos);
    var kind, value := MatchKind(text[pos..]).value, text[pos..][..MatchLength(text[pos..])];
    ScanOne(text, pos, tokens, line, col);
    tokens' := Yield(tokens, kind, value, Location(line, col));
    line', col' := Advance(line, col, value, text, pos);
    pos' := pos + |value|;
  }

  /** `_tokenize`: never fails, and its incremental line and column counters are right: the tokens are the
      significant pieces of the text, however it is cut, each where a reader finds it. */
  method Tokenize(text: string) returns (r: Result<seq<Token>>)
    ensures r == Ok(Tokens(text))
    ensures forall pieces :: CutInto(text, pieces) ==> r == Ok(PlacedTokens("", pieces))
  {
    var line, col, pos := 1, 1, 0;
    var tokens: seq<Token> := [];
    StartScan(text);
    var start := Search(text, pos);
    while start < |text|
      invariant pos <= |text| && start == Search(text, pos)
      invariant Located(text, pos, line, col) && Scanned(text, pos, tokens)
      decreases |text| - pos
    {
      NextMatch(text, pos);
      if start != pos { return Err(ParseError("Unexpected character", Location(line, col))); }
      pos, line, col, tokens := TakeMatch(text, pos, line, col, tokens);
      start := Search(text, pos);
    }
    assert pos == |text| by { if pos < |text| { NextMatch(text, pos); } }
    if pos != |text| { return Err(ParseError("Unexpected character", Location(line, col))); }
    EndScan(text, tokens);
    forall pieces | CutInto(text, pieces) ensures tokens == PlacedTokens("", pieces) { TokensMean(text, pieces); }
    r := Ok(tokens);
  }

  // ----- lexing a printed text piece by piece

  /** The kinds and values of the tokens of `s`. */
  function Lexed(s: string): seq<(Kind, string)>
    decreases |s|
  {
    if s == "" then [] else
      AlwaysMatches(s);
      var n, kind := MatchLength(s), MatchKind(s).value;
      (if kind == WS || kind == COMMENT then [] else [(kind, s[..n])]) + Lexed(s[n..])
  }

  function Unplaced(tokens: seq<Token>): seq<(Kind, string)> {
    seq(|tokens|, i requires 0 <= i < |tokens| => (tokens[i].kind, tokens[i].value))
  }

  lemma UnplacedAppend(a: seq<Token>, b: seq<Token>)
    ensures Unplaced(a + b) == Unplaced(a) + Unplaced(b)
  {}

  /** The kind and value of the token of the match at `p`, if it gives one. */
  function RawHere(text: string, p: nat): seq<(Kind, string)>
    requires p < |text|
  {
    if KindAt(text, p) == WS || KindAt(text, p) == COMMENT then [] else [(KindAt(text, p), MatchAt(text, p))]
  }

  lemma LexedFrom(text: string, p: nat)
    requires p < |text|
    ensures Lexed(text[p..]) == RawHere(text, p) + Lexed(text[p + |MatchAt(text, p)|..])
  {
    assert text[p..][|MatchAt(text, p)|..] == text[p + |MatchAt(text, p)|..];
  }

  lemma UnplacedFrom(text: string, p: nat)
    requires p < |text|
    ensures Unplaced(TokensFrom(text, p)) == RawHere(text, p) + Unplaced(TokensFrom(text, p + |MatchAt(text, p)|))
  {
    UnplacedAppend(TokenHere(text, p), TokensFrom(text, p + |MatchAt(text, p)|));
    assert Unplaced(TokenHere(text, p)) == RawHere(text, p);
  }

  /** The placed and the plain reading of the text from `p` on agree. */
  ghost predicate Agree(text: string, p: nat)
    requires p <= |text|
  {
    Unplaced(TokensFrom(text, p)) == Lexed(text[p..])
  }

  lemma AgreeAtEnd(text: string)
    ensures Agree(text, |text|)
  {
    assert text[|text|..] == "" && TokensFrom(text, |text|) == [];
  }

  lemma AgreeFrom(text: string, p: nat)
    requires p < |text| && Agree(text, p + |MatchAt(text, p)|)
    ensures Agree(text, p)
  {
    LexedFrom(text, p);
    UnplacedFrom(text, p);
  }

  lemma {:induction false} TokensAreLexed(text: string, p: nat)
    requires p <= |text|
    ensures Agree(text, p)
    decreases |text| - p
  {
    if p < |text| {
      TokensAreLexed(text, p + |MatchAt(text, p)|);
      AgreeFrom(text, p);
    } else {
      AgreeAtEnd(text);
    }
  }

  lemma {:induction false} RunOf(a: string, b: string, member: char -> bool)
    requires forall i :: 0 <= i < |a| ==> member(a[i])
    requires b == "" || !member(b[0])
    ensures RunLength(a + b, member) == |a|
  {
    if a == "" {
      assert a + b == b;
    } else {
      RunOf(a[1..], b, member);
      assert (a + b)[1..] == a[1..] + b;
    }
  }

  predicate AtomText(a: string) {
    a != "" && forall i :: 0 <= i < |a| ==> IsAtomChar(a[i])
  }

  lemma LexAtom(a: string, rest: string)
    requires AtomText(a) && (rest == "" || !IsAtomChar(rest[0]))
    ensures Lexed(a + rest) == [(ATOM, a)] + Lexed(rest)
  {
    assert (a + rest)[0] == a[0] && IsAtomChar(a[0]);
    RunOf(a, rest, IsAtomChar);
    assert (a + rest)[..|a|] == a && (a + rest)[|a|..] == rest;
  }

  lemma LexParens(rest: string)
    ensures Lexed("(" + rest) == [(LPAREN, "(")] + Lexed(rest)
    ensures Lexed(")" + rest) == [(RPAREN, ")")] + Lexed(rest)
  {
    assert ("(" + rest)[1..] == rest && (")" + rest)[1..] == rest;
  }

  lemma LexSpace(rest: string)
    requires rest != "" && !IsSpace(rest[0])
    ensures Lexed(" " + rest) == Lexed(rest)
  {
    RunOf(" ", rest, IsSpace);
    assert (" " + rest)[1..] == rest;
  }

  // ----- the meaning of the regular expression

  /** A match of this kind can go on with this character. */
  predicate GoesOn(kind: Kind, c: char) {
    match kind
    case WS => IsSpace(c)
    case COMMENT => c != '\n'
    case ATOM => !IsSpace(c) && c !in {'(', ')', ';'}
    case _ => false
  }

  /** A piece of text is matched by an alternative as a whole. */
  predicate WellMatched(kind: Kind, piece: string) {
    && piece != "" && (forall i :: 0 < i < |piece| ==> GoesOn(kind, piece[i]))
    && match kind
       case COMMENT => piece[0] == ';'
       case LPAREN => piece[0] == '('
       case RPAREN => piece[0] == ')'
       case _ => GoesOn(kind, piece[0])
  }

  /** No longer piece is matched by it. */
  predicate CannotGoOn(kind: Kind, rest: string) {
    rest == "" || !GoesOn(kind, rest[0])
  }

  /** A text cut into pieces that are matched as a whole and are as long as can be. */
  predicate CutInto(s: string, pieces: seq<(Kind, string)>) {
    if pieces == [] then s == "" else
      && WellMatched(pieces[0].0, pieces[0].1) && pieces[0].1 <= s
      && CannotGoOn(pieces[0].0, s[|pieces[0].1|..]) && CutInto(s[|pieces[0].1|..], pieces[1..])
  }

  /** The pieces that are tokens. */
  function Significant(pieces: seq<(Kind, string)>): seq<(Kind, string)> {
    if pieces == [] then []
    else (if pieces[0].0 in {WS, COMMENT} then [] else [pieces[0]]) + Significant(pieces[1..])
  }

  /** The tokens among the pieces after `before`, each where a reader finds it. */
  function PlacedTokens(before: string, pieces: seq<(Kind, string)>): seq<Token>
    decreases |pieces|
  {
    if pieces == [] then []
    else
      var (kind, value) := pieces[0];
      (if kind in {WS, COMMENT} then [] else [Token(kind, value, LocationAfter(before))])
      + PlacedTokens(before + value, pieces[1..])
  }

  lemma {:induction false} RunMeans(s: string, member: char -> bool)
    ensures var n := RunLength(s, member);
            (forall i :: 0 <= i < n ==> member(s[i])) && (n < |s| ==> !member(s[n]))
  {
    if s != "" && member(s[0]) {
      RunMeans(s[1..], member);
      var n := RunLength(s, member);
      forall i | 0 <= i < n ensures member(s[i]) { if i > 0 { assert s[i] == s[1..][i - 1]; } }
      if n < |s| { assert s[n] == s[1..][n - 1]; }
    }
  }

  /** What is matched first is matched as a whole and as long as can be. */
  lemma FirstMatchMeans(s: string)
    requires s != ""
    ensures MatchKind(s).Some? && WellMatched(MatchKind(s).value, s[..MatchLength(s)])
    ensures CannotGoOn(MatchKind(s).value, s[MatchLength(s)..])
  {
    match MatchKind(s).value
    case WS => RunMeans(s, IsSpace);
    case COMMENT => FirstCommentMeans(s);
    case ATOM => RunMeans(s, IsAtomChar);
    case _ =>
  }

  lemma FirstCommentMeans(s: string)
    requires s != "" && s[0] == ';'
    ensures WellMatched(COMMENT, s[..MatchLength(s)]) && CannotGoOn(COMMENT, s[MatchLength(s)..])
  {
    RunMeans(s[1..], NotNewline);
    var n := MatchLength(s);
    forall i | 0 < i < n ensures s[i] != '\n' { assert NotNewline(s[1..][i - 1]); }
    if n < |s| { assert s[n] == s[1..][n - 1]; }
  }

  lemma FirstKind(s: string, kind: Kind, piece: string)
    requires WellMatched(kind, piece) && piece <= s
    ensures MatchKind(s) == Some(kind)
  {
    assert s[0] == piece[0];
  }

  lemma NotLonger(s: string, kind: Kind, piece: string, piece': string)
    requires WellMatched(kind, piece) && piece <= s && CannotGoOn(kind, s[|piece|..])
    requires WellMatched(kind, piece') && piece' <= s
    ensures |piece'| <= |piece|
  {
    if |piece| < |s| { assert s[|piece|..][0] == s[|piece|]; }
  }

  /** There is one way to begin. */
  lemma FirstPieceUnique(s: string, kind: Kind, piece: string, kind': Kind, piece': string)
    requires WellMatched(kind, piece) && piece <= s && CannotGoOn(kind, s[|piece|..])
    requires WellMatched(kind', piece') && piece' <= s && CannotGoOn(kind', s[|piece'|..])
    ensures kind == kind' && piece == piece'
  {
    FirstKind(s, kind, piece);
    FirstKind(s, kind', piece');
    NotLonger(s, kind, piece, piece');
    NotLonger(s, kind, piece', piece);
  }

  /** Every text can be cut. */
  lemma {:induction false} CutExists(s: string) returns (pieces: seq<(Kind, string)>)
    ensures CutInto(s, pieces)
    decreases |s|
  {
    pieces := [];
    if s != "" {
      FirstMatchMeans(s);
      var n := MatchLength(s);
      var rest := CutExists(s[n..]);
      pieces := [(MatchKind(s).value, s[..n])] + rest;
      assert pieces[1..] == rest;
    }
  }

  lemma FirstOfCut(s: string, pieces: seq<(Kind, string)>)
    requires CutInto(s, pieces) && pieces != []
    ensures s != "" && MatchKind(s) == Some(pieces[0].0) && s[..MatchLength(s)] == pieces[0].1
  {
    FirstMatchMeans(s);
    FirstPieceUnique(s, pieces[0].0, pieces[0].1, MatchKind(s).value, s[..MatchLength(s)]);
  }

  /** The first piece is the match at its place. */
  lemma MatchOfCut(text: string, p: nat, pieces: seq<(Kind, string)>)
    requires p <= |text| && CutInto(text[p..], pieces) && pieces != []
    ensures p < |text| && KindAt(text, p) == pieces[0].0 && MatchAt(text, p) == pieces[0].1
    ensures CutInto(text[p + |pieces[0].1|..], pieces[1..])
  {
    FirstOfCut(text[p..], pieces);
    NextMatch(text, p);
    assert text[p..][|pieces[0].1|..] == text[p + |pieces[0].1|..];
  }

  lemma PlaceFirst(before: string, pieces: seq<(Kind, string)>)
    requires pieces != []
    ensures PlacedTokens(before, pieces)
            == TokenOf(pieces[0].0, pieces[0].1, LocationAfter(before))
               + PlacedTokens(before + pieces[0].1, pieces[1..])
  {}

  /** The tokens from `p` on are those among the pieces. */
  ghost predicate PlacedFrom(text: string, p: nat, pieces: seq<(Kind, string)>)
    requires p <= |text|
  {
    TokensFrom(text, p) == PlacedTokens(text[..p], pieces)
  }

  lemma PlacedOne(text: string, p: nat, pieces: seq<(Kind, string)>)
    requires p < |text| && pieces != [] && KindAt(text, p) == pieces[0].0 && MatchAt(text, p) == pieces[0].1
    requires PlacedFrom(text, p + |pieces[0].1|, pieces[1..])
    ensures PlacedFrom(text, p, pieces)
  {
    PlaceFirst(text[..p], pieces);
    assert text[..p] + pieces[0].1 == text[..p + |pieces[0].1|];
  }

  /** However a text is cut, its tokens are the significant pieces, each where a reader finds it. */
  lemma {:induction false} TokensFromMean(text: string, p: nat, pieces: seq<(Kind, string)>)
    requires p <= |text| && CutInto(text[p..], pieces)
    ensures PlacedFrom(text, p, pieces)
    decreases |pieces|
  {
    if pieces == [] {
      assert p == |text|;
    } else {
      MatchOfCut(text, p, pieces);
      TokensFromMean(text, p + |pieces[0].1|, pieces[1..]);
      PlacedOne(text, p, pieces);
    }
  }

  lemma TokensMean(text: string, pieces: seq<(Kind, string)>)
    requires CutInto(text, pieces)
    ensures Tokens(text) == PlacedTokens("", pieces)
  {
    assert text[0..] == text && text[..0] == "";
    TokensFromMean(text, 0, pieces);
  }

  lemma {:induction false} LexedMeans(s: string, pieces: seq<(Kind, string)>)
    requires CutInto(s, pieces)
    ensures Lexed(s) == Significant(pieces)
    decreases |pieces|
  {
    if pieces != [] {
      FirstOfCut(s, pieces);
      LexedMeans(s[|pieces[0].1|..], pieces[1..]);
    }
  }

  lemma {:induction false} NewlinesMean(s: string)
    ensures Newlines(s) == multiset(s)['\n']
  {
    if s != "" {
      NewlinesMean(s[..|s| - 1]);
      assert s == s[..|s| - 1] + [s[|s| - 1]];
    }
  }

  lemma {:induction false} LastLineMeans(s: string) returns (lines: string)
    ensures s == lines + LastLine(s) && '\n' !in LastLine(s) && (lines == "" || lines[|lines| - 1] == '\n')
  {
    if s == "" || s[|s| - 1] == '\n' {
      lines := s;
    } else {
      lines := LastLineMeans(s[..|s| - 1]);
      assert s == s[..|s| - 1] + [s[|s| - 1]];
    }
  }

  /** The line of a reader's location is one more than the newlines before it; the column is one more than the
      characters since the last of them, or since the start. */
  lemma LocationMeans(prefix: string) returns (lines: string, line: string)
    ensures prefix == lines + line && '\n' !in line && (lines == "" || lines[|lines| - 1] == '\n')
    ensures LocationAfter(prefix) == Location(1 + multiset(prefix)['\n'], 1 + |line|)
  {
    NewlinesMean(prefix);
    lines := LastLineMeans(prefix);
    line := LastLine(prefix);
  }

  // ----- white space and comments

  lemma {:induction false} RunWithin(a: string, b: string, member: char -> bool)
    requires RunLength(a, member) < |a| || b == "" || !member(b[0])
    ensures RunLength(a + b, member) == RunLength(a, member)
  {
    if a == "" {
      assert a + b == b;
    } else {
      assert (a + b)[1..] == a[1..] + b;
      if member(a[0]) { RunWithin(a[1..], b, member); }
    }
  }

  lemma {:induction false} RunThrough(a: string, b: string, member: char -> bool)
    requires RunLength(a, member) == |a|
    ensures RunLength(a + b, member) == |a| + RunLength(b, member)
  {
    if a == "" {
      assert a + b == b;
    } else {
      assert (a + b)[1..] == a[1..] + b;
      RunThrough(a[1..], b, member);
    }
  }

  /** Any white space in front is skipped. */
  lemma LexWhite(w: string, rest: string)
    requires Blank(w)
    ensures Lexed(w + rest) == Lexed(rest)
  {
    if w == "" {
      assert w + rest == rest;
    } else {
      RunMeans(w, IsSpace);
      RunThrough(w, rest, IsSpace);
      var m := RunLength(rest, IsSpace);
      assert (w + rest)[|w| + m..] == rest[m..];
      if m == 0 { assert rest[0..] == rest; }
    }
  }

  /** A comment up to the end of its line is skipped. */
  lemma LexComment(c: string, rest: string)
    requires '\n' !in c && (rest == "" || rest[0] == '\n')
    ensures Lexed(";" + c + rest) == Lexed(rest)
  {
    var s := ";" + c + rest;
    forall i | 0 <= i < |c| ensures NotNewline(c[i]) { assert c[i] in c; }
    RunOf(c, rest, NotNewline);
    assert s[1..] == c + rest && s[1 + |c|..] == rest;
  }

  lemma HeadStays(before: string, x: string)
    requires before != ""
    ensures MatchKind(before + x) == MatchKind(before)
    ensures MatchKind(before).value in {LPAREN, RPAREN} ==> MatchLength(before + x) == MatchLength(before)
  {
    assert (before + x)[0] == before[0];
  }

  lemma WhiteStays(before: string, x: string)
    requires before != "" && MatchKind(before) == Some(WS) && RunLength(before, IsSpace) < |before|
    ensures MatchLength(before + x) == MatchLength(before)
  {
    HeadStays(before, x);
    RunWithin(before, x, IsSpace);
  }

  lemma CommentStays(before: string, x: string)
    requires before != "" && MatchKind(before) == Some(COMMENT) && RunLength(before[1..], NotNewline) < |before| - 1
    ensures MatchLength(before + x) == MatchLength(before)
  {
    HeadStays(before, x);
    RunWithin(before[1..], x, NotNewline);
    assert (before + x)[1..] == before[1..] + x;
  }

  lemma AtomStays(before: string, x: string)
    requires before != "" && MatchKind(before) == Some(ATOM) && (x == "" || !IsAtomChar(x[0]))
    ensures MatchLength(before + x) == MatchLength(before)
  {
    HeadStays(before, x);
    RunWithin(before, x, IsAtomChar);
  }

  /** The match at the start of a text does not depend on what follows, if it ends before it or cannot go on. */
  lemma FirstMatchStays(before: string, x: string)
    requires before != ""
    requires x == "" || x[0] == '\n' || x[0] == ';'
    requires MatchKind(before).value == WS ==> RunLength(before, IsSpace) < |before|
    requires MatchKind(before).value == COMMENT ==> RunLength(before[1..], NotNewline) < |before| - 1
    ensures MatchKind(before + x) == MatchKind(before) && MatchLength(before + x) == MatchLength(before)
  {
    HeadStays(before, x);
    match MatchKind(before).value
    case WS => WhiteStays(before, x);
    case COMMENT => CommentStays(before, x);
    case ATOM => AtomStays(before, x);
    case _ =>
  }

  lemma LexFirst(before: string, x: string)
    requires before != "" && MatchLength(before) <= |before|
    requires MatchKind(before + x) == MatchKind(before) && MatchLength(before + x) == MatchLength(before)
    ensures var n, kind := MatchLength(before), MatchKind(before).value;
            Lexed(before + x)
            == (if kind == WS || kind == COMMENT then [] else [(kind, before[..n])]) + Lexed(before[n..] + x)
  {
    var n := MatchLength(before);
    assert (before + x)[n..] == before[n..] + x && (before + x)[..n] == before[..n];
  }

  /** A comment inserted at the end of a line changes no token. */
  lemma {:induction false} CommentInserted(before: string, c: string, rest: string)
    requires '\n' !in c && (rest == "" || rest[0] == '\n')
    ensures Lexed(before + (";" + c + rest)) == Lexed(before + rest)
    decreases |before|
  {
    var x := ";" + c + rest;
    if before == "" {
      assert before + x == x && before + rest == rest;
      LexComment(c, rest);
    } else if MatchKind(before).value == WS && RunLength(before, IsSpace) == |before| {
      RunMeans(before, IsSpace);
      LexWhite(before, x);
      LexWhite(before, rest);
      LexComment(c, rest);
    } else if MatchKind(before).value == COMMENT && RunLength(before[1..], NotNewline) == |before| - 1 {
      InsideComment(before, c, rest);
    } else {
      FirstMatchStays(before, x);
      FirstMatchStays(before, rest);
      LexFirst(before, x);
      LexFirst(before, rest);
      CommentInserted(before[MatchLength(before)..], c, rest);
    }
  }

  lemma NoNewlines(b: string)
    requires RunLength(b, NotNewline) == |b|
    ensures '\n' !in b
  {
    RunMeans(b, NotNewline);
    forall i | 0 <= i < |b| ensures b[i] != '\n' { assert NotNewline(b[i]); }
  }

  lemma InsideComment(before: string, c: string, rest: string)
    requires '\n' !in c && (rest == "" || rest[0] == '\n')
    requires before != "" && before[0] == ';' && RunLength(before[1..], NotNewline) == |before| - 1
    ensures Lexed(before + (";" + c + rest)) == Lexed(before + rest)
  {
    var b := before[1..];
    NoNewlines(b);
    assert before == ";" + b;
    var longer := b + ";" + c;
    assert before + (";" + c + rest) == ";" + longer + rest by { Rebracket(b, c, rest); }
    LexComment(longer, rest);
    LexComment(b, rest);
  }

  lemma Rebracket(b: string, c: string, rest: string)
    ensures (";" + b) + (";" + c + rest) == ";" + (b + ";" + c) + rest
  {}

  /** Nor does one inserted into a text that is tokenized. */
  lemma CommentChangesNoToken(before: string, c: string, rest: string)
    requires '\n' !in c && (rest == "" || rest[0] == '\n')
    ensures Unplaced(Tokens(before + (";" + c + rest))) == Unplaced(Tokens(before + rest))
  {
    var a, b := before + (";" + c + rest), before + rest;
    TokensAreLexed(a, 0);
    TokensAreLexed(b, 0);
    assert a[0..] == a && b[0..] == b;
    CommentInserted(before, c, rest);
  }
}
