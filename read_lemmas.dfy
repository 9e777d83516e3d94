/** What the reader promises, stated over the `*At` functions (and so over
    the `Reader` methods, which follow them). The centrepiece is a round
    trip: the tokens of a printed datum read back as that datum, with its
    symbols case-folded when the reader folds case. */
module ReadLemmas {
  import opened Base
  import opened Tokens
  import opened Datums
  import opened Read

  // ---------------------------------------------------------------------
  // Token fragments

  /** `frag` occurs in `toks` starting at `p`. */
  predicate At(toks: seq<Token>, p: nat, frag: seq<Token>) {
    p + |frag| <= |toks| && forall i :: 0 <= i < |frag| ==> toks[p + i] == frag[i]
  }

  lemma AtSplit(toks: seq<Token>, p: nat, a: seq<Token>, b: seq<Token>)
    requires At(toks, p, a + b)
    ensures At(toks, p, a) && At(toks, p + |a|, b)
  {
    forall i | 0 <= i < |a|
      ensures toks[p + i] == a[i]
    {
      assert (a + b)[i] == a[i];
    }
    forall i | 0 <= i < |b|
      ensures toks[p + |a| + i] == b[i]
    {
      assert (a + b)[|a| + i] == b[i];
    }
  }

  lemma AtFirst(toks: seq<Token>, p: nat, a: seq<Token>)
    requires At(toks, p, a) && a != []
    ensures p < |toks| && toks[p] == a[0]
  {
    assert toks[p + 0] == a[0];
  }

  /** A fragment and one token after it. */
  lemma AtSnoc(toks: seq<Token>, p: nat, a: seq<Token>, c: Token)
    requires At(toks, p, a + [c])
    ensures At(toks, p, a) && p + |a| < |toks| && toks[p + |a|] == c
  {
    AtSplit(toks, p, a, [c]);
    AtFirst(toks, p + |a|, [c]);
  }

  /** A stream made of two parts holds each part in place. */
  lemma AtParts(a: seq<Token>, b: seq<Token>)
    ensures At(a + b, 0, a) && At(a + b, |a|, b)
  {
    assert At(a + b, 0, a + b);
    AtSplit(a + b, 0, a, b);
  }

  lemma AtTwo(toks: seq<Token>, p: nat, a: Token, b: Token)
    requires At(toks, p, [a, b])
    ensures p + 1 < |toks| && toks[p] == a && toks[p + 1] == b
  {
    assert toks[p + 0] == [a, b][0];
    assert toks[p + 1] == [a, b][1];
  }

  // Local helpers: two stock sequence identities the proofs below need
  // as explicit steps.

  lemma Assoc<T>(a: seq<T>, b: seq<T>, c: seq<T>)
    ensures a + b + c == a + (b + c)
  {
  }

  lemma AppendEmpty<T>(a: seq<T>)
    ensures a + [] == a && [] + a == a
  {
  }

  // ---------------------------------------------------------------------
  // A printer for the data the reader can produce

  /** The quote token that yields an abbreviation prefix. */
  function TokenOf(prefix: AbbrevPrefix): (t: Token)
    ensures IsQuoteToken(t) && PrefixOf(t) == prefix
  {
    match prefix
    case Quote => Token.Quote
    case Quasi => Token.Quasi
    case Comma => Token.Comma
    case CommaAt => Token.CommaAt
  }

  /** Quote tokens and prefixes correspond one to one. */
  lemma QuoteTokens(t: Token)
    requires IsQuoteToken(t)
    ensures TokenOf(PrefixOf(t)) == t
  {
  }

  /** Data with a token form the reader accepts: atoms, quotations,
      non-empty lists and vectors, and dotted lists with a non-empty
      front. */
  predicate Printable(d: Datum)
    decreases d, 1
  {
    match d
    case Bool(_) => true
    case Fixnum(_) => true
    case Char(_) => true
    case Str(_) => true
    case Symbol(_) => true
    case Ellipses => true
    case Quote(_, q) => Printable(q)
    case List(es) => es != [] && PrintableSeq(es)
    case Vector(es) => es != [] && PrintableSeq(es)
    case DottedList(init, t) => init != [] && PrintableSeq(init) && Printable(t)
    case _ => false
  }

  predicate PrintableSeq(es: seq<Datum>)
    decreases es, 0
  {
    es == [] || (Printable(es[0]) && PrintableSeq(es[1..]))
  }

  /** A token that can begin a datum: not a closer, a dot or `Eof`. */
  predicate Opens(t: Token) {
    !t.RParen? && !t.RBracket? && !t.Dot? && !t.Eof?
  }

  /** The tokens of a datum, with round parentheses. */
  function Print(d: Datum): (ts: seq<Token>)
    ensures Printable(d) ==> ts != [] && Opens(ts[0])
    decreases d, 1
  {
    match d
    case Bool(b) => [Token.Bool(b)]
    case Fixnum(n) => [Token.Fixnum(n)]
    case Char(c) => [Token.Char(c)]
    case Str(s) => [Token.Str(s)]
    case Symbol(n) => [Ident(n)]
    case Ellipses => [Token.Ellipses]
    case Quote(prefix, q) => [TokenOf(prefix)] + Print(q)
    case List(es) => [LParen] + (PrintSeq(es) + [RParen])
    case Vector(es) => [VecLParen] + (PrintSeq(es) + [RParen])
    case DottedList(init, t) => [LParen] + (PrintSeq(init) + ([Dot] + (Print(t) + [RParen])))
    case _ => []
  }

  /** A dotted list's tokens after its opener, with `closer` in place of
      `)`. */
  function DottedBody(init: seq<Datum>, tail: Datum, closer: Token): seq<Token> {
    PrintSeq(init) + ([Dot] + (Print(tail) + [closer]))
  }

  /** A dotted list's tokens with `closer` in place of `)`. */
  function DottedTokens(init: seq<Datum>, tail: Datum, closer: Token): seq<Token> {
    [LParen] + DottedBody(init, tail, closer)
  }

  function PrintSeq(es: seq<Datum>): (ts: seq<Token>)
    ensures es != [] && PrintableSeq(es) ==> ts != [] && Opens(ts[0])
    decreases es, 0
  {
    if es == [] then [] else Print(es[0]) + PrintSeq(es[1..])
  }

  /** One printed element is printed as itself. */
  lemma PrintOne(es: seq<Datum>)
    requires |es| == 1
    ensures PrintSeq(es) == Print(es[0])
  {
    assert es[1..] == [];
    AppendEmpty(Print(es[0]));
  }

  /** A datum with every symbol name ASCII-lowercased when `fold` holds. */
  function Folded(fold: bool, d: Datum): (r: Datum)
    ensures r.Eof? <==> d.Eof?
    decreases d, 1
  {
    match d
    case Symbol(n) => Datum.Symbol(if fold then AsciiLowercase(n) else n)
    case Quote(prefix, q) => Datum.Quote(prefix, Folded(fold, q))
    case List(es) => Datum.List(FoldedSeq(fold, es))
    case Vector(es) => Datum.Vector(FoldedSeq(fold, es))
    case DottedList(init, t) => Datum.DottedList(FoldedSeq(fold, init), Folded(fold, t))
    case _ => d
  }

  function FoldedSeq(fold: bool, es: seq<Datum>): (rs: seq<Datum>)
    ensures |rs| == |es|
    decreases es, 0
  {
    if es == [] then [] else [Folded(fold, es[0])] + FoldedSeq(fold, es[1..])
  }

  lemma FoldedOne(fold: bool, es: seq<Datum>)
    requires |es| == 1
    ensures FoldedSeq(fold, es) == [Folded(fold, es[0])]
  {
    assert es[1..] == [];
    AppendEmpty([Folded(fold, es[0])]);
  }

  /** Without case folding, folding changes nothing. */
  lemma {:induction false} FoldedIdentity(d: Datum)
    ensures Folded(false, d) == d
    decreases d, 1
  {
    match d
    case Quote(_, q) => FoldedIdentity(q);
    case List(es) => FoldedSeqIdentity(es);
    case Vector(es) => FoldedSeqIdentity(es);
    case DottedList(init, t) => FoldedSeqIdentity(init); FoldedIdentity(t);
    case _ =>
  }

  lemma {:induction false} FoldedSeqIdentity(es: seq<Datum>)
    ensures FoldedSeq(false, es) == es
    decreases es, 0
  {
    if es != [] {
      FoldedIdentity(es[0]);
      FoldedSeqIdentity(es[1..]);
    }
  }

  // ---------------------------------------------------------------------
  // Where the tokens of a printed datum sit, token by token

  /** The number of tokens `Print` gives a datum. */
  function Width(d: Datum): nat
    decreases d, 1
  {
    match d
    case Bool(_) => 1
    case Fixnum(_) => 1
    case Char(_) => 1
    case Str(_) => 1
    case Symbol(_) => 1
    case Ellipses => 1
    case Quote(_, q) => 1 + Width(q)
    case List(es) => Widths(es) + 2
    case Vector(es) => Widths(es) + 2
    case DottedList(init, t) => Widths(init) + Width(t) + 3
    case _ => 0
  }

  function Widths(es: seq<Datum>): nat
    decreases es, 0
  {
    if es == [] then 0 else Width(es[0]) + Widths(es[1..])
  }

  predicate TokenAt(toks: seq<Token>, p: nat, t: Token) {
    p < |toks| && toks[p] == t
  }

  /** `toks` holds the tokens of `Print(d)` from `p` on. */
  predicate PrintedAt(toks: seq<Token>, p: nat, d: Datum)
    decreases d, 2
  {
    match d
    case Bool(b) => TokenAt(toks, p, Token.Bool(b))
    case Fixnum(n) => TokenAt(toks, p, Token.Fixnum(n))
    case Char(c) => TokenAt(toks, p, Token.Char(c))
    case Str(s) => TokenAt(toks, p, Token.Str(s))
    case Symbol(n) => TokenAt(toks, p, Ident(n))
    case Ellipses => TokenAt(toks, p, Token.Ellipses)
    case Quote(prefix, q) => TokenAt(toks, p, TokenOf(prefix)) && PrintedAt(toks, p + 1, q)
    case List(es) => TokenAt(toks, p, LParen) && ElemsAt(toks, p + 1, es) && TokenAt(toks, p + 1 + Widths(es), RParen)
    case Vector(es) =>
      TokenAt(toks, p, VecLParen) && ElemsAt(toks, p + 1, es) && TokenAt(toks, p + 1 + Widths(es), RParen)
    case DottedList(init, t) => TokenAt(toks, p, LParen) && DottedAt(toks, p + 1, init, t, RParen)
    case _ => false
  }

  /** `toks` holds the tokens of `PrintSeq(es)` from `p` on. */
  predicate ElemsAt(toks: seq<Token>, p: nat, es: seq<Datum>)
    decreases es, 1
  {
    es == [] || (PrintedAt(toks, p, es[0]) && ElemsAt(toks, p + Width(es[0]), es[1..]))
  }

  /** `toks` holds the tokens of `DottedBody(init, t, closer)` from `p` on. */
  predicate DottedAt(toks: seq<Token>, p: nat, init: seq<Datum>, t: Datum, closer: Token)
    decreases Datum.DottedList(init, t), 1
  {
    ElemsAt(toks, p, init) && TokenAt(toks, p + Widths(init), Dot) &&
    PrintedAt(toks, p + Widths(init) + 1, t) && TokenAt(toks, p + Widths(init) + Width(t) + 1, closer)
  }

  /** The first of some elements in place, and the rest after it. */
  lemma ElemsCons(toks: seq<Token>, p: nat, es: seq<Datum>)
    requires es != [] && PrintableSeq(es) && ElemsAt(toks, p, es)
    ensures Printable(es[0]) && PrintedAt(toks, p, es[0])
    ensures PrintableSeq(es[1..]) && ElemsAt(toks, p + Width(es[0]), es[1..])
    ensures Widths(es) == Width(es[0]) + Widths(es[1..])
  {
  }

  /** A printable datum, folded or not, is no `Eof`. */
  lemma NotEof(fold: bool, d: Datum)
    requires Printable(d)
    ensures !d.Eof? && !Folded(fold, d).Eof?
  {
  }

  /** A printable dotted list has a printable front, not empty, and a
      printable tail. */
  lemma DottedPrintable(d: Datum)
    requires d.DottedList? && Printable(d)
    ensures d.init != [] && PrintableSeq(d.init) && Printable(d.tail)
  {
  }

  /** The first element of a dotted list's front in place, and the rest
      after it. */
  lemma DottedCons(toks: seq<Token>, p: nat, init: seq<Datum>, t: Datum, closer: Token)
    requires init != [] && PrintableSeq(init) && DottedAt(toks, p, init, t, closer)
    ensures Printable(init[0]) && PrintedAt(toks, p, init[0]) && PrintableSeq(init[1..])
    ensures DottedAt(toks, p + Width(init[0]), init[1..], t, closer)
  {
    ElemsCons(toks, p, init);
  }

  /** The parts of `x . t` in place. */
  lemma DottedFirstAt(toks: seq<Token>, p: nat, d: Datum, closer: Token)
    requires d.DottedList? && Printable(d) && |d.init| == 1 && DottedAt(toks, p, d.init, d.tail, closer)
    ensures Printable(d.init[0]) && PrintedAt(toks, p, d.init[0]) && Printable(d.tail)
    ensures TokenAt(toks, p + Width(d.init[0]), Dot) && PrintedAt(toks, p + Width(d.init[0]) + 1, d.tail)
    ensures TokenAt(toks, p + Width(d.init[0]) + Width(d.tail) + 1, closer)
    ensures Width(d) == Width(d.init[0]) + Width(d.tail) + 3
  {
    var q := p + Width(d.init[0]);
    DottedPrintable(d);
    DottedCons(toks, p, d.init, d.tail, closer);
    DottedParts(toks, q, d.init[1..], d.tail, closer);
    EmptyRest(false, d.init[1..]);
    DottedWidth(d);
  }

  /** `x . t` folds part by part. */
  lemma DottedFirstFold(fold: bool, d: Datum)
    requires d.DottedList? && |d.init| == 1
    ensures Folded(fold, d) == Datum.DottedList([Folded(fold, d.init[0])], Folded(fold, d.tail))
  {
    FoldedDotted(fold, d);
    EmptyRest(fold, d.init[1..]);
    AppendEmpty([Folded(fold, d.init[0])]);
  }

  /** After the first element of a dotted list's front comes the dot
      exactly when the front has one element. */
  lemma DottedNext(toks: seq<Token>, q: nat, es: seq<Datum>, t: Datum, closer: Token)
    requires PrintableSeq(es) && DottedAt(toks, q, es, t, closer)
    ensures q < |toks| && (toks[q].Dot? <==> es == [])
  {
    if es != [] {
      ElemsCons(toks, q, es);
      PrintedOpens(toks, q, es[0]);
    }
  }

  lemma DottedWidth(d: Datum)
    requires d.DottedList? && d.init != []
    ensures Width(d) == Width(d.init[0]) + Widths(d.init[1..]) + Width(d.tail) + 3
  {
  }

  lemma FoldedDotted(fold: bool, d: Datum)
    requires d.DottedList? && d.init != []
    ensures Folded(fold, d) == Datum.DottedList([Folded(fold, d.init[0])] + FoldedSeq(fold, d.init[1..]), Folded(fold, d.tail))
  {
  }

  /** No elements are left: they take no tokens and fold to nothing. */
  lemma EmptyRest(fold: bool, es: seq<Datum>)
    requires es == []
    ensures Widths(es) == 0 && FoldedSeq(fold, es) == []
  {
  }

  /** A dotted list's parts in place make the whole. */
  lemma DottedJoin(toks: seq<Token>, p: nat, es: seq<Datum>, t: Datum, closer: Token)
    requires ElemsAt(toks, p, es) && TokenAt(toks, p + Widths(es), Dot)
    requires PrintedAt(toks, p + Widths(es) + 1, t) && TokenAt(toks, p + Widths(es) + Width(t) + 1, closer)
    ensures DottedAt(toks, p, es, t, closer)
  {
  }

  /** The parts of a dotted list after its front. */
  lemma DottedParts(toks: seq<Token>, p: nat, es: seq<Datum>, t: Datum, closer: Token)
    requires DottedAt(toks, p, es, t, closer)
    ensures ElemsAt(toks, p, es) && TokenAt(toks, p + Widths(es), Dot)
    ensures PrintedAt(toks, p + Widths(es) + 1, t) && TokenAt(toks, p + Widths(es) + Width(t) + 1, closer)
  {
  }

  /** Folding the first element, then the rest, after `acc`. */
  lemma FoldedCons(fold: bool, acc: seq<Datum>, es: seq<Datum>)
    requires es != []
    ensures acc + [Folded(fold, es[0])] + FoldedSeq(fold, es[1..]) == acc + FoldedSeq(fold, es)
  {
    Assoc(acc, [Folded(fold, es[0])], FoldedSeq(fold, es[1..]));
  }

  /** `acc` followed by the folded `es`, built one element at a time as
      the reader's loops build it. */
  function FoldedOnto(fold: bool, acc: seq<Datum>, es: seq<Datum>): seq<Datum>
    decreases es
  {
    if es == [] then acc else FoldedOnto(fold, acc + [Folded(fold, es[0])], es[1..])
  }

  lemma {:induction false} FoldedOntoAppend(fold: bool, acc: seq<Datum>, es: seq<Datum>)
    ensures FoldedOnto(fold, acc, es) == acc + FoldedSeq(fold, es)
    decreases es
  {
    if es == [] {
      AppendEmpty(acc);
    } else {
      FoldedOntoAppend(fold, acc + [Folded(fold, es[0])], es[1..]);
      FoldedCons(fold, acc, es);
    }
  }

  /** A token and what follows it in place. */
  lemma AtCons(toks: seq<Token>, p: nat, t: Token, rest: seq<Token>)
    requires At(toks, p, [t] + rest)
    ensures TokenAt(toks, p, t) && At(toks, p + 1, rest)
  {
    AtSplit(toks, p, [t], rest);
    AtFirst(toks, p, [t]);
  }

  /** Printed tokens in place sit where the predicates above say. */
  lemma {:induction false} PrintedAtPrint(toks: seq<Token>, p: nat, d: Datum)
    requires Printable(d) && At(toks, p, Print(d))
    ensures |Print(d)| == Width(d) && PrintedAt(toks, p, d)
    decreases d, 4
  {
    match d
    case Quote(_, _) => QuoteAtPrint(toks, p, d);
    case List(_) => ListAtPrint(toks, p, d);
    case Vector(_) => ListAtPrint(toks, p, d);
    case DottedList(init, t) =>
      assert Print(d) == DottedTokens(init, t, RParen);
      DottedTokensAt(toks, p, init, t, RParen);
    case _ =>
      AtFirst(toks, p, Print(d));
  }

  lemma {:induction false} QuoteAtPrint(toks: seq<Token>, p: nat, d: Datum)
    requires d.Quote? && Printable(d) && At(toks, p, Print(d))
    ensures |Print(d)| == Width(d) && PrintedAt(toks, p, d)
    decreases d, 3
  {
    AtCons(toks, p, TokenOf(d.prefix), Print(d.quoted));
    PrintedAtPrint(toks, p + 1, d.quoted);
  }

  lemma {:induction false} ListAtPrint(toks: seq<Token>, p: nat, d: Datum)
    requires (d.List? || d.Vector?) && Printable(d) && At(toks, p, Print(d))
    ensures |Print(d)| == Width(d) && PrintedAt(toks, p, d)
    decreases d, 3
  {
    var opener := if d.List? then LParen else VecLParen;
    assert Print(d) == [opener] + (PrintSeq(d.elems) + [RParen]);
    AtCons(toks, p, opener, PrintSeq(d.elems) + [RParen]);
    ClosedElemsAtPrint(toks, p + 1, d.elems, RParen);
  }

  lemma {:induction false} ElemsAtPrint(toks: seq<Token>, p: nat, es: seq<Datum>)
    requires PrintableSeq(es) && At(toks, p, PrintSeq(es))
    ensures |PrintSeq(es)| == Widths(es) && ElemsAt(toks, p, es)
    decreases es, 1
  {
    if es != [] {
      AtSplit(toks, p, Print(es[0]), PrintSeq(es[1..]));
      PrintedAtPrint(toks, p, es[0]);
      ElemsAtPrint(toks, p + |Print(es[0])|, es[1..]);
    }
  }

  /** Printed elements and a closer in place. */
  lemma {:induction false} ClosedElemsAtPrint(toks: seq<Token>, p: nat, es: seq<Datum>, closer: Token)
    requires PrintableSeq(es) && At(toks, p, PrintSeq(es) + [closer])
    ensures |PrintSeq(es)| == Widths(es) && ElemsAt(toks, p, es) && TokenAt(toks, p + Widths(es), closer)
    decreases es, 2
  {
    AtSnoc(toks, p, PrintSeq(es), closer);
    ElemsAtPrint(toks, p, es);
  }

  /** A dot, a printed tail and a closer in place. */
  lemma {:induction false} DotTailAt(toks: seq<Token>, q: nat, t: Datum, closer: Token)
    requires Printable(t) && At(toks, q, [Dot] + (Print(t) + [closer]))
    ensures |Print(t)| == Width(t)
    ensures TokenAt(toks, q, Dot) && PrintedAt(toks, q + 1, t) && TokenAt(toks, q + Width(t) + 1, closer)
    decreases t, 5
  {
    AtCons(toks, q, Dot, Print(t) + [closer]);
    AtSnoc(toks, q + 1, Print(t), closer);
    PrintedAtPrint(toks, q + 1, t);
  }

  lemma {:induction false} DottedBodyAt(toks: seq<Token>, p: nat, init: seq<Datum>, t: Datum, closer: Token)
    requires PrintableSeq(init) && Printable(t) && At(toks, p, DottedBody(init, t, closer))
    ensures |DottedBody(init, t, closer)| == Widths(init) + Width(t) + 2
    ensures DottedAt(toks, p, init, t, closer)
    decreases Datum.DottedList(init, t), 2
  {
    AtSplit(toks, p, PrintSeq(init), [Dot] + (Print(t) + [closer]));
    ElemsAtPrint(toks, p, init);
    DotTailAt(toks, p + |PrintSeq(init)|, t, closer);
    DottedJoin(toks, p, init, t, closer);
  }

  lemma {:induction false} DottedTokensAt(toks: seq<Token>, p: nat, init: seq<Datum>, t: Datum, closer: Token)
    requires PrintableSeq(init) && Printable(t) && At(toks, p, DottedTokens(init, t, closer))
    ensures |DottedTokens(init, t, closer)| == Widths(init) + Width(t) + 3
    ensures TokenAt(toks, p, LParen) && DottedAt(toks, p + 1, init, t, closer)
    decreases Datum.DottedList(init, t), 3
  {
    AtCons(toks, p, LParen, DottedBody(init, t, closer));
    DottedBodyAt(toks, p + 1, init, t, closer);
  }

  /** A printed datum begins with an opening token. */
  lemma PrintedOpens(toks: seq<Token>, p: nat, d: Datum)
    requires Printable(d) && PrintedAt(toks, p, d)
    ensures p < |toks| && Opens(toks[p])
  {
  }

  // ---------------------------------------------------------------------
  // One step of each reading function

  lemma ExprOpens(o: Options, toks: seq<Token>, p: nat)
    requires p < |toks|
    ensures toks[p].LParen? ==> ReadExprAt(o, toks, p) == ReadSexprAt(o, toks, LParen, p + 1)
    ensures toks[p].VecLParen? ==> ReadExprAt(o, toks, p) == ReadVectorAt(o, toks, LParen, p + 1)
    ensures IsQuoteToken(toks[p]) ==> ReadExprAt(o, toks, p) == ReadQuoteAt(o, toks, toks[p], p + 1)
  {
  }

  lemma QuoteStep(o: Options, toks: seq<Token>, quoteTok: Token, p: nat, d: Datum, r: nat)
    requires IsQuoteToken(quoteTok) && p <= |toks|
    requires ReadExprAt(o, toks, p) == Step(Ok(d), r) && !d.Eof?
    ensures ReadQuoteAt(o, toks, quoteTok, p) == Step(Ok(Datum.Quote(PrefixOf(quoteTok), d)), r)
  {
  }

  /** A dotted list where a vector's elements are due. */
  lemma VectorDottedStep(o: Options, toks: seq<Token>, separator: Token, p: nat, d: Datum, r: nat)
    requires p <= |toks| && d.DottedList?
    requires ReadSexprAt(o, toks, separator, p) == Step(Ok(d), r)
    ensures ReadVectorAt(o, toks, separator, p).result == Err(NotAList)
  {
  }

  lemma VectorStep(o: Options, toks: seq<Token>, separator: Token, p: nat, vs: seq<Datum>, r: nat)
    requires p <= |toks|
    requires ReadSexprAt(o, toks, separator, p) == Step(Ok(Datum.List(vs)), r)
    ensures ReadVectorAt(o, toks, separator, p) == Step(Ok(Datum.Vector(vs)), r)
  {
  }

  /** The first element read, no dot after it: the loop takes over. */
  lemma SexprFirstStep(o: Options, toks: seq<Token>, separator: Token, terminator: Token, p: nat, v: Datum, q: nat)
    requires TerminatorOf(o, separator) == Some(terminator)
    requires p < |toks| && !toks[p].Dot?
    requires ReadExprAt(o, toks, p) == Step(Ok(v), q)
    requires q < |toks| && !toks[q].Dot?
    ensures ReadSexprAt(o, toks, separator, p) == SexprLoop(o, toks, terminator, [v], q)
  {
  }

  /** The first element read and a dot after it: the tail, then the
      closer is checked. */
  lemma SexprFirstDotStep(o: Options, toks: seq<Token>, separator: Token, terminator: Token, p: nat, v: Datum,
                          q: nat, w: Datum, r: nat, closer: Token)
    requires TerminatorOf(o, separator) == Some(terminator)
    requires p < |toks| && !toks[p].Dot?
    requires ReadExprAt(o, toks, p) == Step(Ok(v), q)
    requires q < |toks| && toks[q].Dot?
    requires ReadExprAt(o, toks, q + 1) == Step(Ok(w), r) && TokenAt(toks, r, closer)
    ensures ReadSexprAt(o, toks, separator, p) ==
      if closer == terminator then Step(Ok(Datum.DottedList([v], w)), r + 1)
      else Step(Err(ExpectedListTerminator(closer)), r + 1)
  {
    DotTailStep(o, toks, terminator, true, [v], q, w, r);
  }

  /** A dot and the tail read: one more token closes the list, checked
      against the terminator only when `strict`. */
  lemma DotTailStep(o: Options, toks: seq<Token>, terminator: Token, strict: bool, acc: seq<Datum>, q: nat,
                    w: Datum, r: nat)
    requires q < |toks|
    requires ReadExprAt(o, toks, q + 1) == Step(Ok(w), r) && r < |toks|
    ensures DotTail(o, toks, terminator, strict, acc, q) ==
      if !strict || toks[r] == terminator then Step(Ok(Datum.DottedList(acc, w)), r + 1)
      else Step(Err(ExpectedListTerminator(toks[r])), r + 1)
  {
  }

  lemma LoopElementStep(o: Options, toks: seq<Token>, terminator: Token, acc: seq<Datum>, q: nat, v: Datum, r: nat)
    requires q < |toks| && toks[q] != terminator && !toks[q].Dot?
    requires ReadExprAt(o, toks, q) == Step(Ok(v), r)
    ensures SexprLoop(o, toks, terminator, acc, q) == SexprLoop(o, toks, terminator, acc + [v], r)
  {
  }

  lemma LoopCloseStep(o: Options, toks: seq<Token>, terminator: Token, acc: seq<Datum>, q: nat)
    requires q < |toks| && toks[q] == terminator
    ensures SexprLoop(o, toks, terminator, acc, q) == Step(Ok(Datum.List(acc)), q + 1)
  {
  }

  /** A dot in the loop: the tail, then whatever token follows closes. */
  lemma LoopDotStep(o: Options, toks: seq<Token>, terminator: Token, acc: seq<Datum>, q: nat, w: Datum, r: nat)
    requires q < |toks| && toks[q].Dot? && !terminator.Dot?
    requires ReadExprAt(o, toks, q + 1) == Step(Ok(w), r) && r < |toks|
    ensures SexprLoop(o, toks, terminator, acc, q) == Step(Ok(Datum.DottedList(acc, w)), r + 1)
  {
  }

  lemma ReadLoopStep(o: Options, toks: seq<Token>, acc: seq<Datum>, p: nat, v: Datum, r: nat)
    requires p <= |toks| && ReadExprAt(o, toks, p) == Step(Ok(v), r) && !v.Eof?
    ensures ReadLoop(o, toks, acc, p) == ReadLoop(o, toks, acc + [v], r)
  {
  }

  lemma ReadLoopEofStep(o: Options, toks: seq<Token>, acc: seq<Datum>, p: nat)
    requires p < |toks| && toks[p].Eof?
    ensures ReadLoop(o, toks, acc, p) == Step(Ok(Datum.List(acc)), p + 1)
  {
  }

  lemma ReadStartStep(o: Options, toks: seq<Token>, p: nat)
    requires p < |toks|
    ensures ReadAt(o, toks, p) == ReadLoop(o, toks, [], p)
  {
  }

  // ---------------------------------------------------------------------
  // Reading printed data where their tokens sit

  /** A printable datum's tokens read back as the datum, folded, and are
      consumed exactly. */
  lemma {:induction false} ExprReads(o: Options, d: Datum, toks: seq<Token>, p: nat)
    requires Printable(d) && PrintedAt(toks, p, d)
    ensures ReadExprAt(o, toks, p) == Step(Ok(Folded(o.caseInsensitive, d)), p + Width(d))
    decreases d, 3
  {
    if d.Quote? {
      QuoteReads(o, d, toks, p);
    } else if d.List? || d.Vector? {
      ListReads(o, d, toks, p);
    } else if d.DottedList? {
      assert DottedAt(toks, p + 1, d.init, d.tail, RParen);
      DottedReads(o, d, RParen, toks, p);
    } else {
      AtomReads(o, d, toks, p);
    }
  }

  lemma AtomReads(o: Options, d: Datum, toks: seq<Token>, p: nat)
    requires Printable(d) && !d.Quote? && !d.List? && !d.Vector? && !d.DottedList?
    requires PrintedAt(toks, p, d)
    ensures ReadExprAt(o, toks, p) == Step(Ok(Folded(o.caseInsensitive, d)), p + Width(d))
  {
    match d
    case Bool(b) => AtomStep(o, toks, p);
    case Fixnum(n) => AtomStep(o, toks, p);
    case Char(c) => AtomStep(o, toks, p);
    case Str(s) => AtomStep(o, toks, p);
    case Symbol(n) => AtomStep(o, toks, p);
    case Ellipses => AtomStep(o, toks, p);
  }

  /** A token that opens nothing is answered on its own. */
  lemma AtomStep(o: Options, toks: seq<Token>, p: nat)
    requires p < |toks| && !IsQuoteToken(toks[p]) && !toks[p].LParen? && !toks[p].VecLParen?
    requires !toks[p].LBracket? && !toks[p].BrackVecLParen?
    ensures ReadExprAt(o, toks, p) == Step(TokenDatum(o, toks[p]), p + 1)
  {
  }

  lemma {:induction false} QuoteReads(o: Options, d: Datum, toks: seq<Token>, p: nat)
    requires d.Quote? && Printable(d) && PrintedAt(toks, p, d)
    ensures ReadExprAt(o, toks, p) == Step(Ok(Folded(o.caseInsensitive, d)), p + Width(d))
    decreases d, 2
  {
    var q := d.quoted;
    ExprReads(o, q, toks, p + 1);
    ExprOpens(o, toks, p);
    QuoteStep(o, toks, TokenOf(d.prefix), p + 1, Folded(o.caseInsensitive, q), p + Width(d));
  }

  lemma {:induction false} ListReads(o: Options, d: Datum, toks: seq<Token>, p: nat)
    requires (d.List? || d.Vector?) && Printable(d) && PrintedAt(toks, p, d)
    ensures ReadExprAt(o, toks, p) == Step(Ok(Folded(o.caseInsensitive, d)), p + Width(d))
    decreases d, 2
  {
    var es := d.elems;
    TerminatorCloses(o, LParen);
    SexprReads(o, es, LParen, RParen, toks, p + 1);
    ExprOpens(o, toks, p);
    if d.Vector? {
      VectorStep(o, toks, LParen, p + 1, FoldedSeq(o.caseInsensitive, es), p + Width(d));
    }
  }

  /** The closers that `TerminatorOf` yields. */
  lemma TerminatorCloses(o: Options, separator: Token)
    ensures TerminatorOf(o, separator).Some? ==>
      !Opens(TerminatorOf(o, separator).value) && !TerminatorOf(o, separator).value.Dot?
  {
  }

  /** Elements in place, then a token that is no dot: the first token is
      no dot. */
  lemma ElemsNoDot(toks: seq<Token>, q: nat, es: seq<Datum>, next: Token)
    requires PrintableSeq(es) && ElemsAt(toks, q, es) && TokenAt(toks, q + Widths(es), next) && !next.Dot?
    ensures q < |toks| && !toks[q].Dot?
  {
    if es != [] {
      PrintedOpens(toks, q, es[0]);
    }
  }

  /** Elements and the closer after an opener read as one list. */
  lemma {:induction false} SexprReads(o: Options, es: seq<Datum>, separator: Token, terminator: Token,
                                      toks: seq<Token>, p: nat)
    requires TerminatorOf(o, separator) == Some(terminator) && !Opens(terminator) && !terminator.Dot?
    requires es != [] && PrintableSeq(es) && ElemsAt(toks, p, es) && TokenAt(toks, p + Widths(es), terminator)
    ensures ReadSexprAt(o, toks, separator, p) ==
      Step(Ok(Datum.List(FoldedSeq(o.caseInsensitive, es))), p + Widths(es) + 1)
    decreases es, 1
  {
    SexprHead(o, es, separator, terminator, terminator, toks, p);
    LoopClosedReads(o, es[1..], terminator, [Folded(o.caseInsensitive, es[0])], toks, p + Width(es[0]));
  }

  /** After an opener, the first element is read and the loop goes on
      after it, unless a dot follows it. */
  lemma SexprHead(o: Options, es: seq<Datum>, separator: Token, terminator: Token, next: Token,
                  toks: seq<Token>, p: nat)
    requires TerminatorOf(o, separator) == Some(terminator)
    requires es != [] && PrintableSeq(es) && ElemsAt(toks, p, es) && TokenAt(toks, p + Widths(es), next)
    requires !next.Dot?
    ensures ReadSexprAt(o, toks, separator, p) ==
      SexprLoop(o, toks, terminator, [Folded(o.caseInsensitive, es[0])], p + Width(es[0]))
    ensures PrintableSeq(es[1..]) && ElemsAt(toks, p + Width(es[0]), es[1..])
    ensures Widths(es) == Width(es[0]) + Widths(es[1..])
    decreases es, 0
  {
    var q := p + Width(es[0]);
    ElemsCons(toks, p, es);
    ExprReads(o, es[0], toks, p);
    PrintedOpens(toks, p, es[0]);
    ElemsNoDot(toks, q, es[1..], next);
    SexprFirstStep(o, toks, separator, terminator, p, Folded(o.caseInsensitive, es[0]), q);
  }

  /** In the loop, elements are read one by one and kept in order. */
  lemma LoopReads(o: Options, es: seq<Datum>, terminator: Token, acc: seq<Datum>,
                  toks: seq<Token>, q: nat)
    requires !Opens(terminator) && !terminator.Dot?
    requires PrintableSeq(es) && ElemsAt(toks, q, es) && q + Widths(es) <= |toks|
    ensures SexprLoop(o, toks, terminator, acc, q) ==
      SexprLoop(o, toks, terminator, acc + FoldedSeq(o.caseInsensitive, es), q + Widths(es))
    decreases es, 3
  {
    LoopOnto(o, es, terminator, acc, toks, q);
    FoldedOntoAppend(o.caseInsensitive, acc, es);
  }

  lemma {:induction false} LoopOnto(o: Options, es: seq<Datum>, terminator: Token, acc: seq<Datum>,
                                    toks: seq<Token>, q: nat)
    requires !Opens(terminator) && !terminator.Dot?
    requires PrintableSeq(es) && ElemsAt(toks, q, es) && q + Widths(es) <= |toks|
    ensures SexprLoop(o, toks, terminator, acc, q) ==
      SexprLoop(o, toks, terminator, FoldedOnto(o.caseInsensitive, acc, es), q + Widths(es))
    decreases es, 2
  {
    if es != [] {
      LoopOntoCons(o, es, terminator, acc, toks, q);
    }
  }

  lemma {:induction false} LoopOntoCons(o: Options, es: seq<Datum>, terminator: Token, acc: seq<Datum>,
                                        toks: seq<Token>, q: nat)
    requires !Opens(terminator) && !terminator.Dot?
    requires es != [] && PrintableSeq(es) && ElemsAt(toks, q, es) && q + Widths(es) <= |toks|
    ensures SexprLoop(o, toks, terminator, acc, q) ==
      SexprLoop(o, toks, terminator, FoldedOnto(o.caseInsensitive, acc, es), q + Widths(es))
    decreases es, 1
  {
    LoopHead(o, es, terminator, acc, toks, q);
    LoopOnto(o, es[1..], terminator, acc + [Folded(o.caseInsensitive, es[0])], toks, q + Width(es[0]));
  }

  /** The loop reads its first element and keeps it. */
  lemma LoopHead(o: Options, es: seq<Datum>, terminator: Token, acc: seq<Datum>, toks: seq<Token>, q: nat)
    requires !Opens(terminator) && !terminator.Dot?
    requires es != [] && PrintableSeq(es) && ElemsAt(toks, q, es) && q + Width(es[0]) <= |toks|
    ensures SexprLoop(o, toks, terminator, acc, q) ==
      SexprLoop(o, toks, terminator, acc + [Folded(o.caseInsensitive, es[0])], q + Width(es[0]))
    ensures PrintableSeq(es[1..]) && ElemsAt(toks, q + Width(es[0]), es[1..])
    ensures Widths(es) == Width(es[0]) + Widths(es[1..])
    decreases es, 0
  {
    ElemsCons(toks, q, es);
    ExprReads(o, es[0], toks, q);
    PrintedOpens(toks, q, es[0]);
    LoopElementStep(o, toks, terminator, acc, q, Folded(o.caseInsensitive, es[0]), q + Width(es[0]));
  }

  /** Elements and the closer end the loop with the list read. */
  lemma {:induction false} LoopClosedReads(o: Options, es: seq<Datum>, terminator: Token, acc: seq<Datum>,
                                           toks: seq<Token>, q: nat)
    requires !Opens(terminator) && !terminator.Dot?
    requires PrintableSeq(es) && ElemsAt(toks, q, es) && TokenAt(toks, q + Widths(es), terminator)
    ensures SexprLoop(o, toks, terminator, acc, q) ==
      Step(Ok(Datum.List(acc + FoldedSeq(o.caseInsensitive, es))), q + Widths(es) + 1)
    decreases es, 4
  {
    LoopReads(o, es, terminator, acc, toks, q);
    LoopCloseStep(o, toks, terminator, acc + FoldedSeq(o.caseInsensitive, es), q + Widths(es));
  }

  /** `(`, the front, a dot, the tail and one more token. A dot right after
      the first element demands `)` as that token; after a later element
      any token closes the list. */
  lemma {:induction false} DottedReads(o: Options, d: Datum, closer: Token, toks: seq<Token>, p: nat)
    requires d.DottedList? && Printable(d)
    requires TokenAt(toks, p, LParen) && DottedAt(toks, p + 1, d.init, d.tail, closer)
    ensures |d.init| == 1 && closer != RParen ==>
      ReadExprAt(o, toks, p) == Step(Err(ExpectedListTerminator(closer)), p + Width(d))
    ensures |d.init| > 1 || closer == RParen ==>
      ReadExprAt(o, toks, p) == Step(Ok(Folded(o.caseInsensitive, d)), p + Width(d))
    decreases d, 2
  {
    ExprOpens(o, toks, p);
    if |d.init| == 1 {
      DottedFirstReads(o, d, closer, toks, p + 1);
    } else {
      DottedLaterReads(o, d, closer, toks, p + 1);
    }
  }

  /** A dot, the tail and a closer: the tail reads back. */
  lemma {:induction false} DotTailReads(o: Options, t: Datum, closer: Token, toks: seq<Token>, q: nat)
    requires Printable(t) && TokenAt(toks, q, Dot) && PrintedAt(toks, q + 1, t)
    requires TokenAt(toks, q + Width(t) + 1, closer)
    ensures ReadExprAt(o, toks, q + 1) == Step(Ok(Folded(o.caseInsensitive, t)), q + Width(t) + 1)
    decreases t, 4
  {
    ExprReads(o, t, toks, q + 1);
  }

  /** `x . t` and a closer after `(`: the dot right after the first
      element, so the closer is checked. */
  lemma {:induction false} DottedFirstReads(o: Options, d: Datum, closer: Token, toks: seq<Token>, p: nat)
    requires d.DottedList? && Printable(d) && |d.init| == 1
    requires DottedAt(toks, p, d.init, d.tail, closer)
    ensures ReadSexprAt(o, toks, LParen, p) ==
      if closer == RParen then Step(Ok(Folded(o.caseInsensitive, d)), p + Width(d) - 1)
      else Step(Err(ExpectedListTerminator(closer)), p + Width(d) - 1)
    decreases d, 1
  {
    var fold := o.caseInsensitive;
    var x, t := d.init[0], d.tail;
    var q := p + Width(x);
    DottedFirstAt(toks, p, d, closer);
    DottedFirstFold(fold, d);
    ExprReads(o, x, toks, p);
    PrintedOpens(toks, p, x);
    DotTailReads(o, t, closer, toks, q);
    SexprFirstDotStep(o, toks, LParen, RParen, p, Folded(fold, x), q, Folded(fold, t), q + Width(t) + 1, closer);
  }

  /** In the loop: elements, a dot, the tail and any token end the loop
      with a dotted list. */
  lemma {:induction false} LoopDottedReads(o: Options, d: Datum, es: seq<Datum>, closer: Token, acc: seq<Datum>,
                                           toks: seq<Token>, q: nat)
    requires d.DottedList? && |d.init| > 1 && es == d.init[1..] && PrintableSeq(es) && Printable(d.tail)
    requires DottedAt(toks, q, es, d.tail, closer)
    ensures SexprLoop(o, toks, RParen, acc, q) ==
      Step(Ok(Datum.DottedList(acc + FoldedSeq(o.caseInsensitive, es), Folded(o.caseInsensitive, d.tail))),
           q + Widths(es) + Width(d.tail) + 2)
    decreases d, 0
  {
    var q2 := q + Widths(es);
    DottedParts(toks, q, es, d.tail, closer);
    LoopReads(o, es, RParen, acc, toks, q);
    LoopDotTail(o, d.tail, closer, acc + FoldedSeq(o.caseInsensitive, es), toks, q2);
  }

  /** In the loop: a dot, the tail and any token end the loop with a
      dotted list. */
  lemma {:induction false} LoopDotTail(o: Options, t: Datum, closer: Token, acc: seq<Datum>, toks: seq<Token>, q: nat)
    requires Printable(t) && TokenAt(toks, q, Dot) && PrintedAt(toks, q + 1, t)
    requires TokenAt(toks, q + Width(t) + 1, closer)
    ensures SexprLoop(o, toks, RParen, acc, q) ==
      Step(Ok(Datum.DottedList(acc, Folded(o.caseInsensitive, t))), q + Width(t) + 2)
    decreases t, 5
  {
    DotTailReads(o, t, closer, toks, q);
    LoopDotStep(o, toks, RParen, acc, q, Folded(o.caseInsensitive, t), q + Width(t) + 1);
  }

  /** `x y ... . t` and any token after `(`: the dot after a later
      element. */
  lemma {:induction false} DottedLaterReads(o: Options, d: Datum, closer: Token, toks: seq<Token>, p: nat)
    requires d.DottedList? && Printable(d) && |d.init| > 1
    requires DottedAt(toks, p, d.init, d.tail, closer)
    ensures ReadSexprAt(o, toks, LParen, p) == Step(Ok(Folded(o.caseInsensitive, d)), p + Width(d) - 1)
    decreases d, 1
  {
    var init := d.init;
    var v := Folded(o.caseInsensitive, init[0]);
    var q := p + Width(init[0]);
    DottedPrintable(d);
    DottedCons(toks, p, d.init, d.tail, closer);
    DottedNext(toks, q, d.init[1..], d.tail, closer);
    DottedWidth(d);
    FoldedDotted(o.caseInsensitive, d);
    ExprReads(o, init[0], toks, p);
    PrintedOpens(toks, p, init[0]);
    SexprFirstStep(o, toks, LParen, RParen, p, v, q);
    LoopDottedReads(o, d, init[1..], closer, [v], toks, q);
  }

  /** At the top level, data are collected in order. */
  lemma ReadLoopReads(o: Options, ds: seq<Datum>, acc: seq<Datum>, toks: seq<Token>, p: nat)
    requires PrintableSeq(ds) && ElemsAt(toks, p, ds) && p + Widths(ds) <= |toks|
    ensures ReadLoop(o, toks, acc, p) == ReadLoop(o, toks, acc + FoldedSeq(o.caseInsensitive, ds), p + Widths(ds))
  {
    ReadLoopOnto(o, ds, acc, toks, p);
    FoldedOntoAppend(o.caseInsensitive, acc, ds);
  }

  lemma {:induction false} ReadLoopOnto(o: Options, ds: seq<Datum>, acc: seq<Datum>, toks: seq<Token>, p: nat)
    requires PrintableSeq(ds) && ElemsAt(toks, p, ds) && p + Widths(ds) <= |toks|
    ensures ReadLoop(o, toks, acc, p) == ReadLoop(o, toks, FoldedOnto(o.caseInsensitive, acc, ds), p + Widths(ds))
    decreases ds, 1
  {
    if ds != [] {
      ReadLoopOntoCons(o, ds, acc, toks, p);
    }
  }

  lemma {:induction false} ReadLoopOntoCons(o: Options, ds: seq<Datum>, acc: seq<Datum>, toks: seq<Token>, p: nat)
    requires ds != [] && PrintableSeq(ds) && ElemsAt(toks, p, ds) && p + Widths(ds) <= |toks|
    ensures ReadLoop(o, toks, acc, p) == ReadLoop(o, toks, FoldedOnto(o.caseInsensitive, acc, ds), p + Widths(ds))
    decreases ds, 0
  {
    ReadLoopHead(o, ds, acc, toks, p);
    ReadLoopOnto(o, ds[1..], acc + [Folded(o.caseInsensitive, ds[0])], toks, p + Width(ds[0]));
  }

  /** The first of the printed top-level data is read and kept. */
  lemma ReadLoopHead(o: Options, ds: seq<Datum>, acc: seq<Datum>, toks: seq<Token>, p: nat)
    requires ds != [] && PrintableSeq(ds) && ElemsAt(toks, p, ds) && p + Width(ds[0]) <= |toks|
    ensures ReadLoop(o, toks, acc, p) == ReadLoop(o, toks, acc + [Folded(o.caseInsensitive, ds[0])], p + Width(ds[0]))
    ensures PrintableSeq(ds[1..]) && ElemsAt(toks, p + Width(ds[0]), ds[1..])
    ensures Widths(ds) == Width(ds[0]) + Widths(ds[1..])
  {
    ElemsCons(toks, p, ds);
    ExprReads(o, ds[0], toks, p);
    NotEof(o.caseInsensitive, ds[0]);
    ReadLoopStep(o, toks, acc, p, Folded(o.caseInsensitive, ds[0]), p + Width(ds[0]));
  }

  // ---------------------------------------------------------------------
  // Reading printed data back

  /** Reading a printed datum yields it, folded as the reader folds, and
      consumes exactly its tokens. */
  lemma ReadPrinted(o: Options, d: Datum, toks: seq<Token>, p: nat)
    requires Printable(d) && At(toks, p, Print(d))
    ensures ReadExprAt(o, toks, p) == Step(Ok(Folded(o.caseInsensitive, d)), p + |Print(d)|)
  {
    PrintedAtPrint(toks, p, d);
    ExprReads(o, d, toks, p);
  }

  /** The elements and the closer after an opener read as one list. */
  lemma SexprPrinted(o: Options, es: seq<Datum>, separator: Token, terminator: Token, toks: seq<Token>, p: nat)
    requires TerminatorOf(o, separator) == Some(terminator) && !Opens(terminator) && !terminator.Dot?
    requires es != [] && PrintableSeq(es) && At(toks, p, PrintSeq(es) + [terminator])
    ensures ReadSexprAt(o, toks, separator, p) ==
      Step(Ok(Datum.List(FoldedSeq(o.caseInsensitive, es))), p + |PrintSeq(es)| + 1)
  {
    ClosedElemsAtPrint(toks, p, es, terminator);
    SexprReads(o, es, separator, terminator, toks, p);
  }

  /** `(`, a printed front, a dot, a printed tail and one more token. A
      dot right after the first element demands `)` as that token; after a
      later element any token closes the list. */
  lemma DottedPrinted(o: Options, d: Datum, closer: Token, toks: seq<Token>, p: nat)
    requires d.DottedList? && Printable(d) && At(toks, p, DottedTokens(d.init, d.tail, closer))
    ensures |d.init| == 1 && closer != RParen ==>
      ReadExprAt(o, toks, p) == Step(Err(ExpectedListTerminator(closer)), p + |DottedTokens(d.init, d.tail, closer)|)
    ensures |d.init| > 1 || closer == RParen ==>
      ReadExprAt(o, toks, p) == Step(Ok(Folded(o.caseInsensitive, d)), p + |DottedTokens(d.init, d.tail, closer)|)
  {
    DottedTokensAt(toks, p, d.init, d.tail, closer);
    DottedReads(o, d, closer, toks, p);
  }

  // ---------------------------------------------------------------------
  // `read`: whole token streams

  /** Printed top-level data are collected in order. */
  lemma ReadLoopPrinted(o: Options, ds: seq<Datum>, acc: seq<Datum>, toks: seq<Token>, p: nat)
    requires PrintableSeq(ds) && At(toks, p, PrintSeq(ds))
    ensures ReadLoop(o, toks, acc, p) ==
      ReadLoop(o, toks, acc + FoldedSeq(o.caseInsensitive, ds), p + |PrintSeq(ds)|)
  {
    ElemsAtPrint(toks, p, ds);
    ReadLoopReads(o, ds, acc, toks, p);
  }

  /** `read` of printed data and the final `Eof` yields every datum, in
      order, in one list; no data at all gives the empty list. */
  lemma ReadAllPrinted(o: Options, ds: seq<Datum>)
    requires PrintableSeq(ds)
    ensures ReadAt(o, PrintSeq(ds) + [Token.Eof], 0) ==
      Step(Ok(Datum.List(FoldedSeq(o.caseInsensitive, ds))), |PrintSeq(ds)| + 1)
  {
    var toks := PrintSeq(ds) + [Token.Eof];
    AtParts(PrintSeq(ds), [Token.Eof]);
    AtFirst(toks, |PrintSeq(ds)|, [Token.Eof]);
    ReadAllAt(o, ds, toks);
  }

  /** Printed data in place from the start, then `Eof` as the last token. */
  lemma ReadAllAt(o: Options, ds: seq<Datum>, toks: seq<Token>)
    requires PrintableSeq(ds) && At(toks, 0, PrintSeq(ds))
    requires |toks| == |PrintSeq(ds)| + 1 && toks[|PrintSeq(ds)|].Eof?
    ensures ReadAt(o, toks, 0) == Step(Ok(Datum.List(FoldedSeq(o.caseInsensitive, ds))), |toks|)
  {
    var n := |PrintSeq(ds)|;
    ReadLoopPrinted(o, ds, [], toks, 0);
    AppendEmpty(FoldedSeq(o.caseInsensitive, ds));
    ReadStartStep(o, toks, 0);
    ReadLoopEofStep(o, toks, FoldedSeq(o.caseInsensitive, ds), n);
  }

  /** An exhausted stream reads as `Eof`, consuming nothing. */
  lemma ReadExhausted(o: Options, toks: seq<Token>)
    ensures ReadAt(o, toks, |toks|) == Step(Ok(Datum.Eof), |toks|)
    ensures ReadExprAt(o, toks, |toks|) == Step(Ok(Datum.Eof), |toks|)
  {
  }

  /** After printed data, the first datum that fails is the result of
      `read`, unchanged. */
  lemma ReadFirstError(o: Options, ds: seq<Datum>, toks: seq<Token>)
    requires PrintableSeq(ds) && At(toks, 0, PrintSeq(ds))
    requires ReadExprAt(o, toks, |PrintSeq(ds)|).result.Err?
    ensures ReadAt(o, toks, 0) == ReadExprAt(o, toks, |PrintSeq(ds)|)
  {
    ReadLoopPrinted(o, ds, [], toks, 0);
  }

  // ---------------------------------------------------------------------
  // Single tokens

  /** Atom tokens read as the matching datum and consume one token. */
  lemma ReadAtomTokens(o: Options, toks: seq<Token>, p: nat)
    requires p < |toks|
    ensures toks[p].Bool? ==> ReadExprAt(o, toks, p) == Step(Ok(Datum.Bool(toks[p].b)), p + 1)
    ensures toks[p].Fixnum? ==> ReadExprAt(o, toks, p) == Step(Ok(Datum.Fixnum(toks[p].n)), p + 1)
    ensures toks[p].Char? ==> ReadExprAt(o, toks, p) == Step(Ok(Datum.Char(toks[p].c)), p + 1)
    ensures toks[p].Str? ==> ReadExprAt(o, toks, p) == Step(Ok(Datum.Str(toks[p].s)), p + 1)
    ensures toks[p] == Token.Ellipses ==> ReadExprAt(o, toks, p) == Step(Ok(Datum.Ellipses), p + 1)
    ensures toks[p].Ident? || toks[p].Prim? ==>
      ReadExprAt(o, toks, p) ==
        Step(Ok(Datum.Symbol(if o.caseInsensitive then AsciiLowercase(toks[p].name) else toks[p].name)), p + 1)
    ensures toks[p].Eof? ==> ReadExprAt(o, toks, p) == Step(Ok(Datum.Eof), p + 1)
  {
  }

  /** Lowering ASCII case twice changes nothing more. */
  lemma AsciiLowercaseIdempotent(s: string)
    ensures AsciiLowercase(AsciiLowercase(s)) == AsciiLowercase(s)
  {
    assert forall i :: 0 <= i < |s| ==> AsciiLowercase(AsciiLowercase(s))[i] == AsciiLowercase(s)[i];
  }

  /** With case folding, identifiers that differ only in ASCII case read as
      the same symbol, whose name has no ASCII capitals and is left alone by
      folding again. */
  lemma CaseFolding(o: Options, a: string, b: string)
    requires o.caseInsensitive
    ensures ReadExprAt(o, [Ident(a)], 0) == Step(Ok(Datum.Symbol(AsciiLowercase(a))), 1)
    ensures AsciiLowercase(a) == AsciiLowercase(b) ==> ReadExprAt(o, [Ident(a)], 0) == ReadExprAt(o, [Ident(b)], 0)
    ensures forall i :: 0 <= i < |a| ==> !('A' <= AsciiLowercase(a)[i] <= 'Z')
    ensures AsciiLowercase(AsciiLowercase(a)) == AsciiLowercase(a)
  {
    AsciiLowercaseIdempotent(a);
  }

  /** A closer where a datum is expected is rejected; so are a bare dot and
      a comment; byte vectors and `#` are not implemented. */
  lemma MisplacedTokens(o: Options, toks: seq<Token>, p: nat)
    requires p < |toks|
    ensures toks[p] == RParen ==> ReadExprAt(o, toks, p) == Step(Err(UnexpectedListTerminator(RParen)), p + 1)
    ensures toks[p].Dot? ==> ReadExprAt(o, toks, p) == Step(Err(UnknownSymbol(Dot)), p + 1)
    ensures toks[p].Comment? ==> ReadExprAt(o, toks, p) == Step(Err(UnknownSymbol(toks[p])), p + 1)
    ensures toks[p] == Hash || toks[p] == ByteVecLParen ==> ReadExprAt(o, toks, p) == Step(Err(Unimplemented), p + 1)
  {
  }

  /** `()` and `#()` cannot be read: the closer is read as an element. */
  lemma EmptyListUnreadable(o: Options, toks: seq<Token>, p: nat)
    requires At(toks, p, [LParen, RParen]) || At(toks, p, [VecLParen, RParen])
    ensures ReadExprAt(o, toks, p) == Step(Err(UnexpectedListTerminator(RParen)), p + 2)
  {
    if At(toks, p, [LParen, RParen]) {
      AtTwo(toks, p, LParen, RParen);
    } else {
      AtTwo(toks, p, VecLParen, RParen);
    }
    ExprOpens(o, toks, p);
    assert ReadExprAt(o, toks, p + 1) == Step(Err(UnexpectedListTerminator(RParen)), p + 2);
    assert ReadSexprAt(o, toks, LParen, p + 1) == Step(Err(UnexpectedListTerminator(RParen)), p + 2);
  }

  /** A dot right after `(` yields the empty list and leaves the dot to be
      read next, which then fails. */
  lemma DotAfterOpener(o: Options, toks: seq<Token>, p: nat)
    requires At(toks, p, [LParen, Dot])
    ensures ReadExprAt(o, toks, p) == Step(Ok(Datum.List([])), p + 1)
    ensures ReadAt(o, toks, p) == Step(Err(UnknownSymbol(Dot)), p + 2)
  {
    AtTwo(toks, p, LParen, Dot);
    ExprOpens(o, toks, p);
    ReadLoopStep(o, toks, [], p, Datum.List([]), p + 1);
  }

  // ---------------------------------------------------------------------
  // Brackets

  /** Without `bracket_paren`, `[`, `]` and `#[` are unknown. */
  lemma BracketsOff(o: Options, toks: seq<Token>, p: nat)
    requires !o.bracketParen && p < |toks|
    ensures TerminatorOf(o, LBracket) == None && TerminatorOf(o, LParen) == Some(RParen)
    ensures toks[p] == LBracket || toks[p] == RBracket || toks[p] == BrackVecLParen ==>
      ReadExprAt(o, toks, p) == Step(Err(UnknownSymbol(toks[p])), p + 1)
  {
  }

  /** With `bracket_paren`, `[` ... `]` reads as a list and `#[` ... `]` as a
      vector, and a stray `]` is an unexpected closer. */
  lemma BracketsOn(o: Options, toks: seq<Token>, p: nat)
    requires o.bracketParen
    ensures TerminatorOf(o, LBracket) == Some(RBracket) && TerminatorOf(o, LParen) == Some(RParen)
    ensures p < |toks| && toks[p] == RBracket ==>
      ReadExprAt(o, toks, p) == Step(Err(UnexpectedListTerminator(RBracket)), p + 1)
  {
  }

  lemma BracketList(o: Options, es: seq<Datum>, toks: seq<Token>, p: nat)
    requires o.bracketParen && es != [] && PrintableSeq(es)
    requires At(toks, p, [LBracket] + PrintSeq(es) + [RBracket])
    ensures ReadExprAt(o, toks, p) == Step(Ok(Datum.List(FoldedSeq(o.caseInsensitive, es))), p + |PrintSeq(es)| + 2)
  {
    Assoc([LBracket], PrintSeq(es), [RBracket]);
    AtSplit(toks, p, [LBracket], PrintSeq(es) + [RBracket]);
    AtFirst(toks, p, [LBracket]);
    SexprPrinted(o, es, LBracket, RBracket, toks, p + 1);
  }

  lemma BracketVector(o: Options, es: seq<Datum>, toks: seq<Token>, p: nat)
    requires o.bracketParen && es != [] && PrintableSeq(es)
    requires At(toks, p, [BrackVecLParen] + PrintSeq(es) + [RBracket])
    ensures ReadExprAt(o, toks, p) == Step(Ok(Datum.Vector(FoldedSeq(o.caseInsensitive, es))), p + |PrintSeq(es)| + 2)
  {
    Assoc([BrackVecLParen], PrintSeq(es), [RBracket]);
    AtSplit(toks, p, [BrackVecLParen], PrintSeq(es) + [RBracket]);
    AtFirst(toks, p, [BrackVecLParen]);
    SexprPrinted(o, es, LBracket, RBracket, toks, p + 1);
    VectorStep(o, toks, LBracket, p + 1, FoldedSeq(o.caseInsensitive, es), p + |PrintSeq(es)| + 2);
  }

  /** A list opener and a closer of the other kind: after the printed
      elements, the reader takes the wrong closer as the next element and
      rejects it as a stray closer, or, without `bracket_paren`, as an
      unknown symbol. A dot behind a later element is the exception:
      there any token closes, as `LaterDotAcceptsAnyCloser` states, so
      `[x y . z )` reads as a dotted list. */
  lemma MismatchedCloser(o: Options, es: seq<Datum>, opener: Token, closer: Token, toks: seq<Token>, p: nat)
    requires es != [] && PrintableSeq(es)
    requires (opener == LParen || opener == LBracket) && (closer == RParen || closer == RBracket)
    requires At(toks, p, [opener] + PrintSeq(es) + [closer])
    ensures o.bracketParen && opener == LBracket && closer == RParen ==>
      ReadExprAt(o, toks, p) == Step(Err(UnexpectedListTerminator(RParen)), p + |PrintSeq(es)| + 2)
    ensures o.bracketParen && opener == LParen && closer == RBracket ==>
      ReadExprAt(o, toks, p) == Step(Err(UnexpectedListTerminator(RBracket)), p + |PrintSeq(es)| + 2)
    ensures !o.bracketParen && opener == LParen && closer == RBracket ==>
      ReadExprAt(o, toks, p) == Step(Err(UnknownSymbol(RBracket)), p + |PrintSeq(es)| + 2)
  {
    if TerminatorOf(o, opener).Some? && TerminatorOf(o, opener).value != closer {
      Assoc([opener], PrintSeq(es), [closer]);
      AtCons(toks, p, opener, PrintSeq(es) + [closer]);
      ClosedElemsAtPrint(toks, p + 1, es, closer);
      OpenerStep(o, toks, p);
      SexprMismatched(o, es, opener, TerminatorOf(o, opener).value, closer, toks, p + 1);
    }
  }

  /** An opener the flags allow starts `read_sexpr` after it. */
  lemma OpenerStep(o: Options, toks: seq<Token>, p: nat)
    requires p < |toks| && (toks[p] == LParen || toks[p] == LBracket) && TerminatorOf(o, toks[p]).Some?
    ensures ReadExprAt(o, toks, p) == ReadSexprAt(o, toks, toks[p], p + 1)
  {
  }

  /** Elements, then a closer that is not the opener's: what the reader
      makes of that closer on its own. */
  lemma SexprMismatched(o: Options, es: seq<Datum>, separator: Token, terminator: Token, closer: Token,
                        toks: seq<Token>, p: nat)
    requires TerminatorOf(o, separator) == Some(terminator)
    requires (closer == RParen || closer == RBracket) && closer != terminator
    requires es != [] && PrintableSeq(es) && ElemsAt(toks, p, es) && TokenAt(toks, p + Widths(es), closer)
    ensures ReadSexprAt(o, toks, separator, p) == Step(TokenDatum(o, closer), p + Widths(es) + 1)
  {
    var v := Folded(o.caseInsensitive, es[0]);
    var q := p + Width(es[0]);
    TerminatorCloses(o, separator);
    SexprHead(o, es, separator, terminator, closer, toks, p);
    LoopMismatched(o, es[1..], terminator, closer, [v], toks, q);
  }

  lemma LoopMismatched(o: Options, es: seq<Datum>, terminator: Token, closer: Token, acc: seq<Datum>,
                       toks: seq<Token>, q: nat)
    requires !Opens(terminator) && !terminator.Dot?
    requires (closer == RParen || closer == RBracket) && closer != terminator
    requires PrintableSeq(es) && ElemsAt(toks, q, es) && TokenAt(toks, q + Widths(es), closer)
    ensures SexprLoop(o, toks, terminator, acc, q) == Step(TokenDatum(o, closer), q + Widths(es) + 1)
  {
    LoopReads(o, es, terminator, acc, toks, q);
    LoopStrayStep(o, toks, terminator, acc + FoldedSeq(o.caseInsensitive, es), q + Widths(es));
  }

  /** A closer that is not the loop's own is read as an element. */
  lemma LoopStrayStep(o: Options, toks: seq<Token>, terminator: Token, acc: seq<Datum>, q: nat)
    requires q < |toks| && (toks[q] == RParen || toks[q] == RBracket) && toks[q] != terminator
    ensures SexprLoop(o, toks, terminator, acc, q) == Step(TokenDatum(o, toks[q]), q + 1)
  {
  }

  // ---------------------------------------------------------------------
  // Dots, quotes and unterminated lists

  /** `(x . y t)`: after a dot right behind the first element, a token
      other than `)` is `ExpectedListTerminator`. */
  lemma FirstDotChecksCloser(o: Options, x: Datum, y: Datum, t: Token, toks: seq<Token>, p: nat)
    requires Printable(x) && Printable(y) && t != RParen
    requires At(toks, p, DottedTokens([x], y, t))
    ensures ReadExprAt(o, toks, p) == Step(Err(ExpectedListTerminator(t)), p + |Print(x)| + |Print(y)| + 3)
  {
    PrintOne([x]);
    DottedPrinted(o, Datum.DottedList([x], y), t, toks, p);
  }

  /** `(x y ... . z t)`: after a dot behind a later element, any token `t`
      closes the list. */
  lemma LaterDotAcceptsAnyCloser(o: Options, init: seq<Datum>, z: Datum, t: Token, toks: seq<Token>, p: nat)
    requires |init| > 1 && PrintableSeq(init) && Printable(z)
    requires At(toks, p, DottedTokens(init, z, t))
    ensures ReadExprAt(o, toks, p) ==
      Step(Ok(Folded(o.caseInsensitive, Datum.DottedList(init, z))), p + |DottedTokens(init, z, t)|)
  {
    DottedPrinted(o, Datum.DottedList(init, z), t, toks, p);
  }

  /** A quote token with nothing after it but `Eof` is `UnhandledQuote`. */
  lemma QuoteBeforeEof(o: Options, toks: seq<Token>, p: nat)
    requires p < |toks| && IsQuoteToken(toks[p])
    requires p + 1 == |toks| || toks[p + 1].Eof?
    ensures ReadExprAt(o, toks, p).result == Err(UnhandledQuote)
  {
    ExprOpens(o, toks, p);
  }

  /** `#(x . y)` reads a dotted list where a list is due: `NotAList`. */
  lemma DottedVector(o: Options, x: Datum, y: Datum, toks: seq<Token>, p: nat)
    requires Printable(x) && Printable(y)
    requires At(toks, p, [VecLParen] + (Print(x) + ([Dot] + (Print(y) + [RParen]))))
    ensures ReadExprAt(o, toks, p).result == Err(NotAList)
  {
    var d := Datum.DottedList([x], y);
    DottedVectorAt(toks, p, x, y);
    ExprOpens(o, toks, p);
    DottedFirstReads(o, d, RParen, toks, p + 1);
    VectorDottedStep(o, toks, LParen, p + 1, Folded(o.caseInsensitive, d), p + Width(d));
  }

  lemma DottedVectorAt(toks: seq<Token>, p: nat, x: Datum, y: Datum)
    requires Printable(x) && Printable(y)
    requires At(toks, p, [VecLParen] + (Print(x) + ([Dot] + (Print(y) + [RParen]))))
    ensures TokenAt(toks, p, VecLParen) && DottedAt(toks, p + 1, [x], y, RParen)
  {
    PrintOne([x]);
    AtCons(toks, p, VecLParen, DottedBody([x], y, RParen));
    DottedBodyAt(toks, p + 1, [x], y, RParen);
  }

  /** The loop meets `Eof` as an element and then runs off the stream. */
  lemma LoopSwallowsEof(o: Options, toks: seq<Token>, terminator: Token, acc: seq<Datum>, q: nat)
    requires q + 1 == |toks| && toks[q].Eof? && !terminator.Eof?
    ensures SexprLoop(o, toks, terminator, acc, q) == Step(Err(StreamExhausted), |toks|)
  {
    LoopElementStep(o, toks, terminator, acc, q, Datum.Eof, q + 1);
  }

  /** Elements after `(` and then the final `Eof`: the `Eof` is swallowed
      as an element and the stream is exhausted. */
  lemma SexprSwallowsEof(o: Options, es: seq<Datum>, toks: seq<Token>, p: nat)
    requires es != [] && PrintableSeq(es)
    requires ElemsAt(toks, p, es) && TokenAt(toks, p + Widths(es), Token.Eof) && p + Widths(es) + 1 == |toks|
    ensures ReadSexprAt(o, toks, LParen, p) == Step(Err(StreamExhausted), |toks|)
  {
    var v := Folded(o.caseInsensitive, es[0]);
    var q := p + Width(es[0]);
    SexprHead(o, es, LParen, RParen, Token.Eof, toks, p);
    LoopEofReads(o, es[1..], [v], toks, q);
  }

  /** In the loop, elements and then the final `Eof`. */
  lemma LoopEofReads(o: Options, es: seq<Datum>, acc: seq<Datum>, toks: seq<Token>, q: nat)
    requires PrintableSeq(es) && ElemsAt(toks, q, es)
    requires TokenAt(toks, q + Widths(es), Token.Eof) && q + Widths(es) + 1 == |toks|
    ensures SexprLoop(o, toks, RParen, acc, q) == Step(Err(StreamExhausted), |toks|)
  {
    LoopReads(o, es, RParen, acc, toks, q);
    LoopSwallowsEof(o, toks, RParen, acc + FoldedSeq(o.caseInsensitive, es), q + Widths(es));
  }

  /** A list left open before the final `Eof` swallows the `Eof` as an
      element and then finds the stream exhausted. */
  lemma UnterminatedList(o: Options, es: seq<Datum>)
    requires es != [] && PrintableSeq(es)
    ensures ReadExprAt(o, [LParen] + PrintSeq(es) + [Token.Eof], 0) ==
      Step(Err(StreamExhausted), |PrintSeq(es)| + 2)
  {
    var toks := [LParen] + PrintSeq(es) + [Token.Eof];
    Assoc([LParen], PrintSeq(es), [Token.Eof]);
    AtParts([LParen], PrintSeq(es) + [Token.Eof]);
    AtFirst(toks, 0, [LParen]);
    ClosedElemsAtPrint(toks, 1, es, Token.Eof);
    ExprOpens(o, toks, 0);
    SexprSwallowsEof(o, es, toks, 1);
  }
}
