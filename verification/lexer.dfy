/** The tokenizer of js/parser.js (`tokenize`). It walks the input left to
    right, skipping whitespace and cutting maximal runs of number characters,
    maximal identifier runs, one- or two-character operators and single
    parentheses; any other character is an error. */
module Lexer {
  import opened Errors

  /** A NUMBER token keeps the text of its run beside the value
      `parseFloat` gives it; the other kinds carry their literal text. */
  datatype Token =
    | Number(text: string, value: real)
    | Identifier(name: string)
    | Keyword(word: string)
    | Operator(symbol: string)
    | Paren(open: bool)

  /** The characters a token was cut from. */
  function Text(t: Token): string {
    match t
    case Number(text, _) => text
    case Identifier(name) => name
    case Keyword(word) => word
    case Operator(symbol) => symbol
    case Paren(open) => if open then "(" else ")"
  }

  // ----- character classes -------------------------------------------------

  /** The class `\s` of a JavaScript regular expression. */
  predicate IsSpace(c: char) {
    || c == ' ' || c == '\t' || c == '\n' || c == '\r'
    || c == '\U{0B}' || c == '\U{0C}' || c == '\U{A0}' || c == '\U{1680}'
    || ('\U{2000}' <= c <= '\U{200A}')
    || c == '\U{2028}' || c == '\U{2029}' || c == '\U{202F}' || c == '\U{205F}'
    || c == '\U{3000}' || c == '\U{FEFF}'
  }

  predicate IsDigit(c: char) {
    '0' <= c <= '9'
  }

  predicate IsLetter(c: char) {
    ('a' <= c <= 'z') || ('A' <= c <= 'Z')
  }

  /** The class `\d|\.` that starts and continues a number run. */
  predicate IsNumberChar(c: char) {
    IsDigit(c) || c == '.'
  }

  /** The class `[a-zA-Z0-9]` that continues an identifier run. */
  predicate IsWordChar(c: char) {
    IsLetter(c) || IsDigit(c)
  }

  /** The class `[\+\-\*\/\^=><]`; note that '!' is not in it. */
  predicate IsOperatorChar(c: char) {
    c == '+' || c == '-' || c == '*' || c == '/' || c == '^' || c == '=' || c == '>' || c == '<'
  }

  predicate IsParenChar(c: char) {
    c == '(' || c == ')'
  }

  /** A character some lexing rule accepts. */
  predicate Lexable(c: char) {
    IsSpace(c) || IsNumberChar(c) || IsLetter(c) || IsOperatorChar(c) || IsParenChar(c)
  }

  const Keywords: set<string> := {"sin", "cos", "tan", "sqrt", "log", "ln", "pi", "e", "if"}

  /** Every OPERATOR text the tokenizer can emit. */
  const Operators: set<string> := {"+", "-", "*", "/", "^", "=", ">", "<", "==", ">=", "<="}

  /** Number of '.' characters in `s`. */
  function Dots(s: string): nat {
    if s == [] then 0 else (if s[0] == '.' then 1 else 0) + Dots(s[1..])
  }

  /** Length of the longest prefix of `s` whose characters all satisfy `p`. */
  function Span(s: string, p: char -> bool): (n: nat)
    ensures n <= |s|
    ensures forall i :: 0 <= i < n ==> p(s[i])
    ensures n == |s| || !p(s[n])
  {
    if s == [] || !p(s[0]) then 0 else 1 + Span(s[1..], p)
  }

  // ----- the tokenizer -----------------------------------------------------

  /** `tokenize`: the whole input, or the error of the first character
      (from the left) that no rule accepts. */
  function Tokenize(parseFloat: string -> real, s: string): (r: Result<seq<Token>>)
    ensures r.Ok? ==> forall i :: 0 <= i < |r.value| ==> WellFormed(r.value[i], parseFloat)
    ensures r.Err? ==> (r.error.InvalidNumber? && Dots(r.error.text) > 1) ||
                       (r.error.UnknownCharacter? && r.error.found in s && !Lexable(r.error.found))
    decreases |s|
  {
    if s == [] then Ok([])
    else
      var c := s[0];
      if IsSpace(c) then Tokenize(parseFloat, s[1..])
      else if IsNumberChar(c) then
        var n := Span(s, IsNumberChar);
        var run := s[..n];
        if Dots(run) > 1 then Err(InvalidNumber(run))
        else
          var rest :- Tokenize(parseFloat, s[n..]);
          Ok([Number(run, parseFloat(run))] + rest)
      else if IsLetter(c) then
        var n := Span(s, IsWordChar);
        var word := s[..n];
        var rest :- Tokenize(parseFloat, s[n..]);
        Ok([if word in Keywords then Keyword(word) else Identifier(word)] + rest)
      else if IsOperatorChar(c) then
        if (c == '=' || c == '>' || c == '<') && |s| > 1 && s[1] == '=' then
          var rest :- Tokenize(parseFloat, s[2..]);
          Ok([Operator([c, '='])] + rest)
        else
          var rest :- Tokenize(parseFloat, s[1..]);
          Ok([Operator([c])] + rest)
      else if IsParenChar(c) then
        var rest :- Tokenize(parseFloat, s[1..]);
        Ok([Paren(c == '(')] + rest)
      else Err(UnknownCharacter(c))
  }

  // ----- what a token can look like ----------------------------------------

  /** `[a-zA-Z][a-zA-Z0-9]*` */
  predicate IsWord(w: string) {
    |w| > 0 && IsLetter(w[0]) && forall i :: 0 <= i < |w| ==> IsWordChar(w[i])
  }

  predicate IsNumberText(text: string) {
    |text| > 0 && (forall i :: 0 <= i < |text| ==> IsNumberChar(text[i])) && Dots(text) <= 1
  }

  /** The shape of every token the tokenizer emits. */
  predicate WellFormed(t: Token, parseFloat: string -> real) {
    match t
    case Number(text, v) => IsNumberText(text) && v == parseFloat(text)
    case Identifier(name) => IsWord(name) && name !in Keywords
    case Keyword(word) => word in Keywords
    case Operator(symbol) => symbol in Operators
    case Paren(_) => true
  }

  // ----- partners: rendering and stripping ---------------------------------

  /** Token texts, each followed by one space. */
  function Render(toks: seq<Token>): string {
    if toks == [] then "" else Text(toks[0]) + " " + Render(toks[1..])
  }

  /** Token texts glued together with nothing between them. */
  function Glue(toks: seq<Token>): string {
    if toks == [] then "" else Text(toks[0]) + Glue(toks[1..])
  }

  /** `s` with every whitespace character removed. */
  function Strip(s: string): string {
    if s == [] then "" else (if IsSpace(s[0]) then "" else [s[0]]) + Strip(s[1..])
  }

  lemma {:induction false} SpanOfPrefix(w: string, rest: string, p: char -> bool)
    requires forall i :: 0 <= i < |w| ==> p(w[i])
    requires rest == [] || !p(rest[0])
    ensures Span(w + rest, p) == |w|
  {
    if w != [] {
      assert (w + rest)[1..] == w[1..] + rest;
      SpanOfPrefix(w[1..], rest, p);
    } else {
      assert w + rest == rest;
    }
  }

  lemma KeywordsAreWords(w: string)
    requires w in Keywords
    ensures IsWord(w)
  {
  }

  lemma SkipSpace(parseFloat: string -> real, rest: string)
    ensures Tokenize(parseFloat, " " + rest) == Tokenize(parseFloat, rest)
  {
    assert (" " + rest)[1..] == rest;
  }

  /** The shape of "one token, then the rest lexes to `tail`". */
  function Prepend(t: Token, tail: Result<seq<Token>>): Result<seq<Token>> {
    match tail
    case Ok(ts) => Ok([t] + ts)
    case Err(k) => Err(k)
  }

  lemma NumberThenSpace(parseFloat: string -> real, text: string, rest: string)
    requires IsNumberText(text)
    ensures Tokenize(parseFloat, text + " " + rest) ==
            Prepend(Number(text, parseFloat(text)), Tokenize(parseFloat, rest))
  {
    var s := text + " " + rest;
    assert s == text + (" " + rest);
    SpanOfPrefix(text, " " + rest, IsNumberChar);
    assert s[..|text|] == text;
    assert s[|text|..] == " " + rest;
    SkipSpace(parseFloat, rest);
  }

  lemma WordThenSpace(parseFloat: string -> real, word: string, rest: string)
    requires IsWord(word)
    ensures Tokenize(parseFloat, word + " " + rest) ==
            Prepend(if word in Keywords then Keyword(word) else Identifier(word),
                    Tokenize(parseFloat, rest))
  {
    var s := word + " " + rest;
    assert s == word + (" " + rest);
    SpanOfPrefix(word, " " + rest, IsWordChar);
    assert s[..|word|] == word;
    assert s[|word|..] == " " + rest;
    SkipSpace(parseFloat, rest);
  }

  lemma OperatorThenSpace(parseFloat: string -> real, symbol: string, rest: string)
    requires symbol in Operators
    ensures Tokenize(parseFloat, symbol + " " + rest) ==
            Prepend(Operator(symbol), Tokenize(parseFloat, rest))
  {
    if |symbol| == 2 {
      PairThenSpace(parseFloat, symbol, rest);
    } else {
      SingleThenSpace(parseFloat, symbol, rest);
    }
  }

  lemma PairThenSpace(parseFloat: string -> real, symbol: string, rest: string)
    requires symbol in Operators && |symbol| == 2
    ensures Tokenize(parseFloat, symbol + " " + rest) ==
            Prepend(Operator(symbol), Tokenize(parseFloat, rest))
  {
    var c := symbol[0];
    assert symbol == [c, '='] && (c == '=' || c == '>' || c == '<');
    assert symbol + " " + rest == [c, '='] + (" " + rest);
    PairOperator(parseFloat, c, " " + rest);
    SkipSpace(parseFloat, rest);
  }

  lemma SingleThenSpace(parseFloat: string -> real, symbol: string, rest: string)
    requires symbol in Operators && |symbol| != 2
    ensures Tokenize(parseFloat, symbol + " " + rest) ==
            Prepend(Operator(symbol), Tokenize(parseFloat, rest))
  {
    var c := symbol[0];
    assert symbol == [c] && IsOperatorChar(c);
    assert symbol + " " + rest == [c] + (" " + rest);
    SingleOperator(parseFloat, c, " " + rest);
    SkipSpace(parseFloat, rest);
  }

  /** `==`, `>=` and `<=`. */
  lemma PairOperator(parseFloat: string -> real, c: char, rest: string)
    requires c == '=' || c == '>' || c == '<'
    ensures Tokenize(parseFloat, [c, '='] + rest) == Prepend(Operator([c, '=']), Tokenize(parseFloat, rest))
  {
    var s := [c, '='] + rest;
    assert s[0] == c && s[1] == '=' && s[2..] == rest;
    assert !IsSpace(c) && !IsNumberChar(c) && !IsLetter(c) && IsOperatorChar(c);
  }

  /** An operator character not followed by '='. */
  lemma SingleOperator(parseFloat: string -> real, c: char, rest: string)
    requires IsOperatorChar(c)
    requires rest == [] || rest[0] != '='
    ensures Tokenize(parseFloat, [c] + rest) == Prepend(Operator([c]), Tokenize(parseFloat, rest))
  {
    var s := [c] + rest;
    assert s[0] == c && s[1..] == rest;
    assert !IsSpace(c) && !IsNumberChar(c) && !IsLetter(c);
  }

  lemma ParenThenSpace(parseFloat: string -> real, open: bool, rest: string)
    ensures Tokenize(parseFloat, Text(Paren(open)) + " " + rest) ==
            Prepend(Paren(open), Tokenize(parseFloat, rest))
  {
    var c := if open then '(' else ')';
    assert Text(Paren(open)) + " " + rest == [c] + (" " + rest);
    ParenChar(parseFloat, c, " " + rest);
    SkipSpace(parseFloat, rest);
  }

  lemma ParenChar(parseFloat: string -> real, c: char, rest: string)
    requires IsParenChar(c)
    ensures Tokenize(parseFloat, [c] + rest) == Prepend(Paren(c == '('), Tokenize(parseFloat, rest))
  {
    var s := [c] + rest;
    assert s[0] == c && s[1..] == rest;
    assert !IsSpace(c) && !IsNumberChar(c) && !IsLetter(c) && !IsOperatorChar(c);
  }

  /** One well-formed token followed by a space lexes back to itself. */
  lemma TokenThenSpace(parseFloat: string -> real, t: Token, rest: string)
    requires WellFormed(t, parseFloat)
    ensures Tokenize(parseFloat, Text(t) + " " + rest) == Prepend(t, Tokenize(parseFloat, rest))
  {
    match t
    case Number(text, v) => NumberThenSpace(parseFloat, text, rest);
    case Identifier(name) => WordThenSpace(parseFloat, name, rest);
    case Keyword(word) =>
      KeywordsAreWords(word);
      WordThenSpace(parseFloat, word, rest);
    case Operator(symbol) => OperatorThenSpace(parseFloat, symbol, rest);
    case Paren(open) => ParenThenSpace(parseFloat, open, rest);
  }

  /** Rendering well-formed tokens and lexing the text gives them back. */
  lemma {:induction false} RenderRoundTrip(parseFloat: string -> real, toks: seq<Token>)
    requires forall i :: 0 <= i < |toks| ==> WellFormed(toks[i], parseFloat)
    ensures Tokenize(parseFloat, Render(toks)) == Ok(toks)
  {
    if toks != [] {
      RenderRoundTrip(parseFloat, toks[1..]);
      TokenThenSpace(parseFloat, toks[0], Render(toks[1..]));
      assert [toks[0]] + toks[1..] == toks;
    }
  }

  lemma {:induction false} StripAppend(a: string, b: string)
    ensures Strip(a + b) == Strip(a) + Strip(b)
  {
    if a != [] {
      assert (a + b)[1..] == a[1..] + b;
      StripAppend(a[1..], b);
    } else {
      assert a + b == b;
    }
  }

  lemma {:induction false} StripNoSpace(w: string)
    requires forall i :: 0 <= i < |w| ==> !IsSpace(w[i])
    ensures Strip(w) == w
  {
    if w != [] {
      StripNoSpace(w[1..]);
    }
  }

  /** The first token of a successful lexing that does not start with
      whitespace: its text is the first `n` characters, and the other tokens
      lex the rest. */
  lemma FirstToken(parseFloat: string -> real, s: string) returns (n: nat)
    requires s != [] && !IsSpace(s[0]) && Tokenize(parseFloat, s).Ok?
    ensures 0 < n <= |s|
    ensures Tokenize(parseFloat, s[n..]).Ok?
    ensures Tokenize(parseFloat, s).value == [Tokenize(parseFloat, s).value[0]] + Tokenize(parseFloat, s[n..]).value
    ensures Text(Tokenize(parseFloat, s).value[0]) == s[..n] == Strip(s[..n])
    ensures IsNumberChar(s[0]) ==> n == Span(s, IsNumberChar)
    ensures IsLetter(s[0]) ==> n == Span(s, IsWordChar)
    ensures !IsNumberChar(s[0]) && !IsLetter(s[0]) ==> n == SymbolLength(s)
  {
    var t;
    t, n := LeadingToken(parseFloat, s);
    StripNoSpace(s[..n]);
  }

  /** The token a non-space first character starts, and its length. */
  lemma LeadingToken(parseFloat: string -> real, s: string) returns (t: Token, n: nat)
    requires s != [] && !IsSpace(s[0]) && Tokenize(parseFloat, s).Ok?
    ensures 0 < n <= |s| && Text(t) == s[..n]
    ensures forall i :: 0 <= i < n ==> !IsSpace(s[i])
    ensures Tokenize(parseFloat, s) == Prepend(t, Tokenize(parseFloat, s[n..]))
    ensures IsNumberChar(s[0]) ==> n == Span(s, IsNumberChar)
    ensures IsLetter(s[0]) ==> n == Span(s, IsWordChar)
    ensures !IsNumberChar(s[0]) && !IsLetter(s[0]) ==> n == SymbolLength(s)
  {
    var c := s[0];
    if IsNumberChar(c) {
      t, n := LeadingNumber(parseFloat, s);
    } else if IsLetter(c) {
      t, n := LeadingWord(parseFloat, s);
    } else {
      t, n := LeadingSymbol(parseFloat, s);
    }
  }

  /** A number takes the longest run of digits and dots, which has at most
      one dot. */
  lemma LeadingNumber(parseFloat: string -> real, s: string) returns (t: Token, n: nat)
    requires s != [] && IsNumberChar(s[0]) && Tokenize(parseFloat, s).Ok?
    ensures 0 < n <= |s| && Text(t) == s[..n]
    ensures forall i :: 0 <= i < n ==> !IsSpace(s[i])
    ensures Tokenize(parseFloat, s) == Prepend(t, Tokenize(parseFloat, s[n..]))
    ensures n == Span(s, IsNumberChar) && Dots(s[..n]) <= 1
    ensures t == Number(s[..n], parseFloat(s[..n]))
  {
    n := Span(s, IsNumberChar);
    t := Number(s[..n], parseFloat(s[..n]));
  }

  /** A word takes the longest run of letters and digits; it is a keyword
      exactly when the whole run is one. */
  lemma LeadingWord(parseFloat: string -> real, s: string) returns (t: Token, n: nat)
    requires s != [] && IsLetter(s[0])
    ensures 0 < n <= |s| && Text(t) == s[..n]
    ensures forall i :: 0 <= i < n ==> !IsSpace(s[i])
    ensures Tokenize(parseFloat, s) == Prepend(t, Tokenize(parseFloat, s[n..]))
    ensures n == Span(s, IsWordChar)
    ensures t.Keyword? <==> s[..n] in Keywords
  {
    n := Span(s, IsWordChar);
    var word := s[..n];
    t := if word in Keywords then Keyword(word) else Identifier(word);
  }

  /** Characters an operator or parenthesis takes from the front of `s`:
      two for `==`, `>=` and `<=`, one otherwise. */
  function SymbolLength(s: string): nat
    requires s != []
  {
    if (s[0] == '=' || s[0] == '>' || s[0] == '<') && |s| > 1 && s[1] == '=' then 2 else 1
  }

  /** An operator takes a following '=' when it can; a parenthesis stands
      alone. */
  lemma LeadingSymbol(parseFloat: string -> real, s: string) returns (t: Token, n: nat)
    requires s != [] && !IsSpace(s[0]) && !IsNumberChar(s[0]) && !IsLetter(s[0]) && Tokenize(parseFloat, s).Ok?
    ensures 0 < n <= |s| && Text(t) == s[..n]
    ensures forall i :: 0 <= i < n ==> !IsSpace(s[i])
    ensures Tokenize(parseFloat, s) == Prepend(t, Tokenize(parseFloat, s[n..]))
    ensures n == SymbolLength(s)
    ensures t.Operator? <==> IsOperatorChar(s[0])
  {
    var c := s[0];
    if IsOperatorChar(c) && (c == '=' || c == '>' || c == '<') && |s| > 1 && s[1] == '=' {
      n := 2;
      t := Operator([c, '=']);
      assert s[..2] == [c, '='];
    } else if IsOperatorChar(c) {
      n := 1;
      t := Operator([c]);
      assert s[..1] == [c];
    } else {
      n := 1;
      t := Paren(c == '(');
      assert s[..1] == [c];
    }
  }

  /** Nothing but whitespace is lost: the tokens' texts, glued, are the
      input without its whitespace. */
  lemma {:induction false} TokenizeKeepsText(parseFloat: string -> real, s: string)
    requires Tokenize(parseFloat, s).Ok?
    ensures Glue(Tokenize(parseFloat, s).value) == Strip(s)
    decreases |s|
  {
    if s != [] {
      if IsSpace(s[0]) {
        TokenizeKeepsText(parseFloat, s[1..]);
        StripAppend(s[..1], s[1..]);
        assert s[..1] + s[1..] == s;
        assert Strip(s[..1]) == "";
      } else {
        var n := FirstToken(parseFloat, s);
        var toks := Tokenize(parseFloat, s).value;
        assert toks[1..] == Tokenize(parseFloat, s[n..]).value;
        TokenizeKeepsText(parseFloat, s[n..]);
        StripAppend(s[..n], s[n..]);
        assert s[..n] + s[n..] == s;
      }
    }
  }

  /** Lexing succeeds only on text made of accepted characters. */
  lemma {:induction false} TokenizeOnlyLexable(parseFloat: string -> real, s: string)
    ensures Tokenize(parseFloat, s).Ok? ==> forall i :: 0 <= i < |s| ==> Lexable(s[i])
    decreases |s|
  {
    if s != [] && Tokenize(parseFloat, s).Ok? {
      var c := s[0];
      var n: nat;
      if IsSpace(c) {
        n := 1;
      } else if IsNumberChar(c) {
        n := Span(s, IsNumberChar);
      } else if IsLetter(c) {
        n := Span(s, IsWordChar);
      } else if IsOperatorChar(c) && (c == '=' || c == '>' || c == '<') && |s| > 1 && s[1] == '=' {
        n := 2;
      } else {
        n := 1;
      }
      TokenizeOnlyLexable(parseFloat, s[n..]);
      forall i | 0 <= i < |s|
        ensures Lexable(s[i])
      {
        if i >= n {
          assert s[i] == s[n..][i - n];
        }
      }
    }
  }

  /** A run of digits and dots with more than one dot is an error, whatever
      follows it. */
  lemma ManyDotsRejected(parseFloat: string -> real, s: string)
    requires s != [] && IsNumberChar(s[0]) && Dots(s[..Span(s, IsNumberChar)]) > 1
    ensures Tokenize(parseFloat, s) == Err(InvalidNumber(s[..Span(s, IsNumberChar)]))
  {
  }

  /** The error of a number with more than one dot is reported for the
      first such run, after any text that lexes: `1.2.3` fails even after
      `x + `. */
  lemma {:induction false} ManyDotsRejectedAfter(parseFloat: string -> real, pre: seq<Token>, s: string)
    requires forall i :: 0 <= i < |pre| ==> WellFormed(pre[i], parseFloat)
    requires s != [] && IsNumberChar(s[0]) && Dots(s[..Span(s, IsNumberChar)]) > 1
    ensures Tokenize(parseFloat, Render(pre) + s) == Err(InvalidNumber(s[..Span(s, IsNumberChar)]))
  {
    if pre == [] {
      assert Render(pre) + s == s;
    } else {
      assert Render(pre) + s == Text(pre[0]) + " " + (Render(pre[1..]) + s);
      TokenThenSpace(parseFloat, pre[0], Render(pre[1..]) + s);
      ManyDotsRejectedAfter(parseFloat, pre[1..], s);
    }
  }

  /** Any '!' anywhere (so also in `a!=b`) makes lexing fail: the `!=`
      branch of the tokenizer can never be taken. */
  lemma BangNeverLexes(parseFloat: string -> real, s: string, i: nat)
    requires i < |s| && s[i] == '!'
    ensures Tokenize(parseFloat, s).Err?
  {
    TokenizeOnlyLexable(parseFloat, s);
  }
}
