/** The datum reader (sgeme/src/read.rs): recursive descent with one token
    of lookahead over the token sequence.

    The source walks a shared peekable iterator. Here the stream is a token
    sequence and a cursor. The `*At` functions say what each reading
    procedure yields from a cursor position and where it leaves the cursor.
    The `Reader` class holds the cursor, and its methods are proved to
    follow those functions. */
module Read {
  import opened Base
  import opened Tokens
  import opened Datums
  import Expander

  /** The source's read errors, with the offending token where it has one.
      The last three variants stand for panics of the source. */
  datatype ReadError =
    | UnknownSymbol(tok: Token)
    | UnexpectedListTerminator(tok: Token)
    | ExpectedListTerminator(tok: Token)
    | UnhandledQuote
    | ExpandError(err: Expander.ExpanderError)
    | Nothing
    /** `unwrap()` of a `peek()` or `next()` on an exhausted stream */
    | StreamExhausted
    /** a `todo!()`: byte vectors and `#` */
    | Unimplemented
    /** the `unreachable!()` of `read_vector` on a dotted result */
    | NotAList

  type ReadResult<T> = Result<T, ReadError>

  /** The reader's two flags. */
  datatype Options = Options(caseInsensitive: bool, bracketParen: bool)

  /** What a reading procedure yields, and where it leaves the cursor. */
  datatype Step = Step(result: ReadResult<Datum>, pos: nat)

  /** The ASCII-only lowercase mapping of one character. */
  function AsciiLower(c: char): (l: char)
    ensures !('A' <= l <= 'Z')
    ensures 'A' <= c <= 'Z' ==> l as int == c as int + 32
    ensures !('A' <= c <= 'Z') ==> l == c
  {
    if 'A' <= c <= 'Z' then (c as int + 32) as char else c
  }

  /** `str::to_ascii_lowercase`: ASCII capitals lowered, everything else
      kept. */
  function AsciiLowercase(s: string): (r: string)
    ensures |r| == |s|
    ensures forall i :: 0 <= i < |s| ==> r[i] == AsciiLower(s[i])
  {
    if s == [] then [] else [AsciiLower(s[0])] + AsciiLowercase(s[1..])
  }

  /** The tokens `read_quote` accepts. */
  predicate IsQuoteToken(t: Token) {
    t.Quote? || t.Quasi? || t.Comma? || t.CommaAt?
  }

  /** The abbreviation prefix recorded for a quote token. */
  function PrefixOf(t: Token): AbbrevPrefix
    requires IsQuoteToken(t)
  {
    match t
    case Quote => AbbrevPrefix.Quote
    case Quasi => AbbrevPrefix.Quasi
    case Comma => AbbrevPrefix.Comma
    case CommaAt => AbbrevPrefix.CommaAt
  }

  /** The list opener `tok` stands for, if it opens a list under the
      flags: `(`, or `[` with `bracket_paren`. */
  predicate OpensList(o: Options, tok: Token) {
    tok.LParen? || (tok.LBracket? && o.bracketParen)
  }

  /** A vector opener under the flags: `#(`, or `#[` with `bracket_paren`. */
  predicate OpensVector(o: Options, tok: Token) {
    tok.VecLParen? || (tok.BrackVecLParen? && o.bracketParen)
  }

  /** The separator `read_vector` is called with for a vector opener. */
  function VectorSeparator(tok: Token): Token {
    if tok.VecLParen? then LParen else LBracket
  }

  /** What `read_expr` yields for a token it answers without reading
      further. The last arm is the source's catch-all. */
  function TokenDatum(o: Options, tok: Token): ReadResult<Datum> {
    match tok
    case Ident(i) => Ok(Datum.Symbol(if o.caseInsensitive then AsciiLowercase(i) else i))
    case Prim(i) => Ok(Datum.Symbol(if o.caseInsensitive then AsciiLowercase(i) else i))
    case Bool(b) => Ok(Datum.Bool(b))
    case Fixnum(f) => Ok(Datum.Fixnum(f))
    case Char(c) => Ok(Datum.Char(c))
    case Str(s) => Ok(Datum.Str(s))
    case Ellipses => Ok(Datum.Ellipses)
    case RParen => Err(UnexpectedListTerminator(tok))
    case RBracket =>
      if o.bracketParen then Err(UnexpectedListTerminator(tok)) else Err(UnknownSymbol(tok))
    case ByteVecLParen => Err(Unimplemented)
    case Eof => Ok(Datum.Eof)
    case Hash => Err(Unimplemented)
    case _ => Err(UnknownSymbol(tok))
  }

  /** `read_expr` at cursor `p`: consumes one token or more when one is
      left; yields `Eof` and consumes nothing when none is. */
  function ReadExprAt(o: Options, toks: seq<Token>, p: nat): (s: Step)
    requires p <= |toks|
    ensures p <= s.pos <= |toks|
    ensures p < |toks| ==> p < s.pos
    ensures p == |toks| ==> s == Step(Ok(Datum.Eof), p)
    decreases |toks| - p, 0
  {
    if p == |toks| then Step(Ok(Datum.Eof), p)
    else
      var tok := toks[p];
      if IsQuoteToken(tok) then ReadQuoteAt(o, toks, tok, p + 1)
      else if OpensList(o, tok) then ReadSexprAt(o, toks, tok, p + 1)
      else if OpensVector(o, tok) then ReadVectorAt(o, toks, VectorSeparator(tok), p + 1)
      else Step(TokenDatum(o, tok), p + 1)
  }

  /** `read_quote` after the quote token: the next datum wrapped with the
      token's prefix; `Eof` there is `UnhandledQuote`. */
  function ReadQuoteAt(o: Options, toks: seq<Token>, quoteTok: Token, p: nat): (s: Step)
    requires IsQuoteToken(quoteTok) && p <= |toks|
    ensures p <= s.pos <= |toks|
    decreases |toks| - p, 1
  {
    var inner := ReadExprAt(o, toks, p);
    if inner.result.Err? then inner
    else if inner.result.value.Eof? then Step(Err(UnhandledQuote), inner.pos)
    else Step(Ok(Datum.Quote(PrefixOf(quoteTok), inner.result.value)), inner.pos)
  }

  /** The closer that matches an opener, if the flags allow the opener. */
  function TerminatorOf(o: Options, separator: Token): Option<Token> {
    if separator.LParen? then Some(RParen)
    else if separator.LBracket? && o.bracketParen then Some(RBracket)
    else None
  }

  /** After a dot at `q` with the elements `acc` read: the tail datum, then
      one more token. When `strict`, that token must be `terminator`;
      otherwise any token is taken as the closer. */
  function DotTail(o: Options, toks: seq<Token>, terminator: Token, strict: bool, acc: seq<Datum>, q: nat): (s: Step)
    requires q < |toks|
    ensures q < s.pos <= |toks|
    decreases |toks| - q, 1
  {
    var other := ReadExprAt(o, toks, q + 1);
    if other.result.Err? then other
    else if other.pos == |toks| then Step(Err(StreamExhausted), other.pos)
    else if !strict || toks[other.pos] == terminator then
      Step(Ok(DottedList(acc, other.result.value)), other.pos + 1)
    else Step(Err(ExpectedListTerminator(toks[other.pos])), other.pos + 1)
  }

  /** `read_sexpr` after the opener. A dot right after the first element
      is checked strictly. */
  function ReadSexprAt(o: Options, toks: seq<Token>, separator: Token, p: nat): (s: Step)
    requires p <= |toks|
    ensures p <= s.pos <= |toks|
    decreases |toks| - p, 2
  {
    if TerminatorOf(o, separator).None? then Step(Err(UnknownSymbol(separator)), p)
    else if p == |toks| then Step(Err(StreamExhausted), p)
    else if toks[p].Dot? then Step(Ok(List([])), p)
    else
      var first := ReadExprAt(o, toks, p);
      if first.result.Err? then first
      else if first.pos == |toks| then Step(Err(StreamExhausted), first.pos)
      else if toks[first.pos].Dot? then
        DotTail(o, toks, TerminatorOf(o, separator).value, true, [first.result.value], first.pos)
      else SexprLoop(o, toks, TerminatorOf(o, separator).value, [first.result.value], first.pos)
  }

  /** The `loop` of `read_sexpr`, with the elements read so far in `acc`.
      After a dot and the tail, ANY next token is accepted as the closer. */
  function SexprLoop(o: Options, toks: seq<Token>, terminator: Token, acc: seq<Datum>, q: nat): (s: Step)
    requires q <= |toks|
    ensures q <= s.pos <= |toks|
    decreases |toks| - q, 2
  {
    if q == |toks| then Step(Err(StreamExhausted), q)
    else if toks[q] == terminator then Step(Ok(List(acc)), q + 1)
    else if toks[q].Dot? then DotTail(o, toks, terminator, false, acc, q)
    else
      var next := ReadExprAt(o, toks, q);
      if next.result.Err? then next
      else SexprLoop(o, toks, terminator, acc + [next.result.value], next.pos)
  }

  /** `read_vector` after the opener: the list read by `read_sexpr`, as a
      vector. */
  function ReadVectorAt(o: Options, toks: seq<Token>, separator: Token, p: nat): (s: Step)
    requires p <= |toks|
    ensures p <= s.pos <= |toks|
    decreases |toks| - p, 3
  {
    var inner := ReadSexprAt(o, toks, separator, p);
    if inner.result.Err? then inner
    else if inner.result.value.List? then Step(Ok(Vector(inner.result.value.elems)), inner.pos)
    else Step(Err(NotAList), inner.pos)
  }

  /** The loop of `read`: top-level data until `Eof`, in order. */
  function ReadLoop(o: Options, toks: seq<Token>, acc: seq<Datum>, p: nat): (s: Step)
    requires p <= |toks|
    ensures p <= s.pos <= |toks|
    decreases |toks| - p
  {
    var next := ReadExprAt(o, toks, p);
    match next.result
    case Err(_) => next
    case Ok(d) =>
      if d.Eof? then Step(Ok(List(acc)), next.pos)
      else ReadLoop(o, toks, acc + [d], next.pos)
  }

  /** `read`: `Eof` for an exhausted stream, otherwise every top-level datum
      in one list. */
  function ReadAt(o: Options, toks: seq<Token>, p: nat): (s: Step)
    requires p <= |toks|
    ensures p <= s.pos <= |toks|
  {
    if p == |toks| then Step(Ok(Datum.Eof), p)
    else ReadLoop(o, toks, [], p)
  }

  /** The reader: its two flags and the token stream with its cursor. */
  class Reader {
    const caseInsensitive: bool
    const bracketParen: bool
    const tokens: seq<Token>
    var pos: nat

    ghost predicate Valid()
      reads this
    {
      pos <= |tokens|
    }

    function Opts(): Options {
      Options(caseInsensitive, bracketParen)
    }

    /** `Reader::init`, over a fresh stream. */
    constructor Init(caseInsensitive: bool, bracketParen: bool, tokens: seq<Token>)
      ensures Valid()
      ensures this.caseInsensitive == caseInsensitive && this.bracketParen == bracketParen
      ensures this.tokens == tokens && pos == 0
    {
      this.caseInsensitive := caseInsensitive;
      this.bracketParen := bracketParen;
      this.tokens := tokens;
      pos := 0;
    }

    /** `peek()`: the next token, if any. */
    function Peek(): (t: Option<Token>)
      reads this
      requires Valid()
      ensures t.None? <==> pos == |tokens|
      ensures t.Some? ==> t.value == tokens[pos]
    {
      if pos < |tokens| then Some(tokens[pos]) else None
    }

    /** `next()`: the next token, if any, consumed. */
    method Next() returns (t: Option<Token>)
      requires Valid()
      modifies this
      ensures Valid()
      ensures t == old(Peek())
      ensures pos == if old(pos) < |tokens| then old(pos) + 1 else old(pos)
    {
      if pos < |tokens| {
        t := Some(tokens[pos]);
        pos := pos + 1;
      } else {
        t := None;
      }
    }

    /** `read_expr`. */
    method ReadExpr() returns (r: ReadResult<Datum>)
      requires Valid()
      modifies this
      ensures Valid()
      ensures Step(r, pos) == ReadExprAt(Opts(), tokens, old(pos))
      decreases |tokens| - pos, 0
    {
      var curr := Next();
      match curr {
        case None => r := Ok(Datum.Eof);
        case Some(tok) =>
          match tok {
            case Ident(i) => r := Ok(Datum.Symbol(if caseInsensitive then AsciiLowercase(i) else i));
            case Prim(i) => r := Ok(Datum.Symbol(if caseInsensitive then AsciiLowercase(i) else i));
            case Bool(b) => r := Ok(Datum.Bool(b));
            case Fixnum(f) => r := Ok(Datum.Fixnum(f));
            case Char(c) => r := Ok(Datum.Char(c));
            case Str(s) => r := Ok(Datum.Str(s));
            case Ellipses => r := Ok(Datum.Ellipses);
            case Comma => r := ReadQuote(tok);
            case CommaAt => r := ReadQuote(tok);
            case Quote => r := ReadQuote(tok);
            case Quasi => r := ReadQuote(tok);
            case RParen => r := Err(UnexpectedListTerminator(tok));
            case RBracket =>
              if bracketParen {
                r := Err(UnexpectedListTerminator(tok));
              } else {
                r := Err(UnknownSymbol(tok));
              }
            case BrackVecLParen =>
              if bracketParen {
                r := ReadVector(LBracket);
              } else {
                r := Err(UnknownSymbol(tok));
              }
            case VecLParen => r := ReadVector(LParen);
            case ByteVecLParen => r := Err(Unimplemented);
            case LParen => r := ReadSexpr(tok);
            case LBracket =>
              if bracketParen {
                r := ReadSexpr(tok);
              } else {
                r := Err(UnknownSymbol(tok));
              }
            case Eof => r := Ok(Datum.Eof);
            case Hash => r := Err(Unimplemented);
            case Dot => r := Err(UnknownSymbol(tok));
            case Comment(_) => r := Err(UnknownSymbol(tok));
          }
      }
    }

    /** `read_quote`. */
    method ReadQuote(quoteTok: Token) returns (r: ReadResult<Datum>)
      requires Valid() && IsQuoteToken(quoteTok)
      modifies this
      ensures Valid()
      ensures Step(r, pos) == ReadQuoteAt(Opts(), tokens, quoteTok, old(pos))
      decreases |tokens| - pos, 1
    {
      var prefix := PrefixOf(quoteTok);
      var expr :- ReadExpr();
      if expr.Eof? {
        r := Err(UnhandledQuote);
      } else {
        r := Ok(Datum.Quote(prefix, expr));
      }
    }

    /** `read_vector`. */
    method ReadVector(separator: Token) returns (r: ReadResult<Datum>)
      requires Valid()
      modifies this
      ensures Valid()
      ensures Step(r, pos) == ReadVectorAt(Opts(), tokens, separator, old(pos))
      decreases |tokens| - pos, 3
    {
      var d :- ReadSexpr(separator);
      if d.List? {
        r := Ok(Vector(d.elems));
      } else {
        r := Err(NotAList);
      }
    }

    /** `read_sexpr`. */
    method ReadSexpr(separator: Token) returns (r: ReadResult<Datum>)
      requires Valid()
      modifies this
      ensures Valid()
      ensures Step(r, pos) == ReadSexprAt(Opts(), tokens, separator, old(pos))
      decreases |tokens| - pos, 2
    {
      var terminator: Token;
      if separator.LParen? {
        terminator := RParen;
      } else if separator.LBracket? && bracketParen {
        terminator := RBracket;
      } else {
        return Err(UnknownSymbol(separator));
      }
      var sexpr: seq<Datum> := [];
      var curr := Peek();
      if curr.None? {
        return Err(StreamExhausted);
      }
      if curr.value.Dot? {
        return Ok(List(sexpr));
      }
      assert TerminatorOf(Opts(), separator) == Some(terminator);
      ghost var start := pos;
      var tmp :- ReadExpr();
      sexpr := sexpr + [tmp];
      assert ReadExprAt(Opts(), tokens, start) == Step(Ok(tmp), pos);
      assert sexpr == [tmp];

      // a dot after the first element: the tail, then the matching closer
      var afterFirst := Peek();
      if afterFirst.None? {
        return Err(StreamExhausted);
      }
      if afterFirst.value.Dot? {
        r := ReadDotTail(terminator, true, sexpr);
        return;
      }

      while true
        invariant Valid()
        invariant ReadSexprAt(Opts(), tokens, separator, old(pos)) == SexprLoop(Opts(), tokens, terminator, sexpr, pos)
        decreases |tokens| - pos
      {
        var look := Peek();
        if look.None? {
          return Err(StreamExhausted);
        }
        if look.value == terminator {
          var _ := Next();
          return Ok(List(sexpr));
        } else if look.value.Dot? {
          // the source's pattern binds `maybe_term` afresh, so every token closes
          r := ReadDotTail(terminator, false, sexpr);
          return;
        } else {
          var next :- ReadExpr();
          sexpr := sexpr + [next];
        }
      }
    }

    /** The dot handling of `read_sexpr`, after the elements `acc`: the dot,
        the tail datum and one more token, which must be `terminator` when
        `strict`. */
    method ReadDotTail(terminator: Token, strict: bool, acc: seq<Datum>) returns (r: ReadResult<Datum>)
      requires Valid() && pos < |tokens|
      modifies this
      ensures Valid()
      ensures Step(r, pos) == DotTail(Opts(), tokens, terminator, strict, acc, old(pos))
      decreases |tokens| - pos, 1
    {
      var _ := Next();
      var other :- ReadExpr();
      var maybeTerm := Next();
      if maybeTerm.None? {
        return Err(StreamExhausted);
      }
      if !strict || maybeTerm.value == terminator {
        return Ok(DottedList(acc, other));
      } else {
        return Err(ExpectedListTerminator(maybeTerm.value));
      }
    }

    /** `read`. */
    method Read() returns (r: ReadResult<Datum>)
      requires Valid()
      modifies this
      ensures Valid()
      ensures Step(r, pos) == ReadAt(Opts(), tokens, old(pos))
    {
      if Peek().None? {
        return Ok(Datum.Eof);
      }
      var prgrm: seq<Datum> := [];
      while true
        invariant Valid()
        invariant ReadAt(Opts(), tokens, old(pos)) == ReadLoop(Opts(), tokens, prgrm, pos)
        decreases |tokens| - pos
      {
        var d :- ReadExpr();
        if d.Eof? {
          break;
        }
        prgrm := prgrm + [d];
      }
      r := Ok(List(prgrm));
    }
  }
}
