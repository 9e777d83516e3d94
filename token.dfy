/** The token type produced by the lexer and the post-lexing filter
    `Token::really_lex` (sgeme/src/token.rs). The lexer itself is a generated
    automaton and is not modelled: its output is taken as an input sequence. */
module Tokens {
  import opened Base

  datatype Token =
    | Fixnum(n: int32)
    | Str(s: string)
    | Ident(name: string)
    | Prim(name: string)
    | Char(c: char)
    | Bool(b: bool)
    | LBracket
    | RBracket
    | LParen
    | RParen
    | VecLParen
    | BrackVecLParen
    | ByteVecLParen
    | Quote
    | Quasi
    | Comma
    | CommaAt
    | Hash
    | Dot
    | Ellipses
    | Comment(text: string)
    | Eof

  /** One item yielded by the lexer: a token, or a lexing error
      (the error value itself is never inspected). */
  datatype LexItem = Lexed(tok: Token) | LexError

  /** Whether the filter keeps an item: errors and comments are dropped. */
  predicate Keeps(item: LexItem) {
    item.Lexed? && !item.tok.Comment?
  }

  /** The tokens the filter keeps, in lexer order. */
  function Kept(items: seq<LexItem>): seq<Token> {
    if items == [] then []
    else (if Keeps(items[0]) then [items[0].tok] else []) + Kept(items[1..])
  }

  /** How many items the filter keeps. */
  function KeptCount(items: seq<LexItem>): nat {
    if items == [] then 0
    else (if Keeps(items[0]) then 1 else 0) + KeptCount(items[1..])
  }

  /** What the lexer can produce: `Eof` has no lexical pattern, so it never
      appears among the lexed tokens. */
  predicate LexerOutput(items: seq<LexItem>) {
    forall i :: 0 <= i < |items| && items[i].Lexed? ==> items[i].tok != Eof
  }

  /** Filtering distributes over concatenation: kept tokens stay in their
      original relative order. */
  lemma {:induction false} KeptAppend(a: seq<LexItem>, b: seq<LexItem>)
    ensures Kept(a + b) == Kept(a) + Kept(b)
  {
    if a == [] {
      assert a + b == b;
    } else {
      var head := if Keeps(a[0]) then [a[0].tok] else [];
      assert (a + b)[0] == a[0];
      assert (a + b)[1..] == a[1..] + b;
      calc {
        Kept(a + b);
        head + Kept(a[1..] + b);
        { KeptAppend(a[1..], b); }
        head + (Kept(a[1..]) + Kept(b));
        (head + Kept(a[1..])) + Kept(b);
      }
    }
  }

  /** What the filter keeps: exactly the non-comment tokens, no error and
      no comment. */
  lemma {:induction false} KeptMembers(items: seq<LexItem>)
    ensures |Kept(items)| == KeptCount(items)
    ensures forall t :: t in Kept(items) ==> !t.Comment?
    ensures forall t :: t in Kept(items) <==> Lexed(t) in items && !t.Comment?
  {
    if items != [] {
      KeptMembers(items[1..]);
      assert items == [items[0]] + items[1..];
      forall t
        ensures t in Kept(items) <==> Lexed(t) in items && !t.Comment?
      {
        assert Lexed(t) in items <==> Lexed(t) == items[0] || Lexed(t) in items[1..];
      }
    }
  }

  /** A lexer error or a comment anywhere in the input leaves the kept
      tokens exactly as if it were not there. */
  lemma DroppedItem(a: seq<LexItem>, x: LexItem, b: seq<LexItem>)
    requires !Keeps(x)
    ensures Kept(a + [x] + b) == Kept(a + b)
  {
    KeptAppend(a + [x], b);
    KeptAppend(a, [x]);
    KeptAppend(a, b);
    assert Kept([x]) == [];
  }

  /** When the input is genuine lexer output, no kept token is `Eof`. */
  lemma {:induction false} KeptHasNoEof(items: seq<LexItem>)
    requires LexerOutput(items)
    ensures Eof !in Kept(items)
  {
    if items != [] {
      assert LexerOutput(items[1..]) by {
        forall i | 0 <= i < |items[1..]| && items[1..][i].Lexed?
          ensures items[1..][i].tok != Eof
        {
          assert items[1..][i] == items[i + 1];
        }
      }
      KeptHasNoEof(items[1..]);
    }
  }

  /** The filter's output grows by at most the one token it keeps. */
  lemma KeptSnoc(items: seq<LexItem>, i: nat)
    requires i < |items|
    ensures Kept(items[..i + 1]) == Kept(items[..i]) + (if Keeps(items[i]) then [items[i].tok] else [])
  {
    KeptAppend(items[..i], [items[i]]);
    assert items[..i + 1] == items[..i] + [items[i]];
    assert [items[i]][1..] == [];
  }

  /** The kept tokens followed by `Eof`: what `really_lex` returns. */
  lemma KeptThenEof(items: seq<LexItem>)
    ensures |Kept(items) + [Eof]| == KeptCount(items) + 1
    ensures forall t :: t in Kept(items) + [Eof] ==> !t.Comment?
    ensures LexerOutput(items) ==> forall i :: 0 <= i < |Kept(items)| ==> (Kept(items) + [Eof])[i] != Eof
  {
    KeptMembers(items);
    var tokens := Kept(items) + [Eof];
    if LexerOutput(items) {
      KeptHasNoEof(items);
      forall i | 0 <= i < |Kept(items)|
        ensures tokens[i] != Eof
      {
        assert tokens[i] == Kept(items)[i];
      }
    }
  }

  /** `Token::really_lex`: drops comments and lexer errors, keeps every other
      token in order and appends `Eof`. */
  method ReallyLex(items: seq<LexItem>) returns (tokens: seq<Token>)
    ensures tokens == Kept(items) + [Eof]
    ensures |tokens| == KeptCount(items) + 1 && tokens[|tokens| - 1] == Eof
    ensures forall t :: t in tokens ==> !t.Comment?
    ensures LexerOutput(items) ==> forall i :: 0 <= i < |tokens| - 1 ==> tokens[i] != Eof
  {
    tokens := [];
    for i := 0 to |items|
      invariant tokens == Kept(items[..i])
    {
      KeptSnoc(items, i);
      match items[i]
      case Lexed(Comment(_)) =>
      case LexError =>
      case Lexed(t) => tokens := tokens + [t];
    }
    assert items[..|items|] == items;
    tokens := tokens + [Eof];
    KeptThenEof(items);
  }
}
