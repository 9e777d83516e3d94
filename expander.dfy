/** The expander (sgeme/src/expander.rs): a syntax-directed rewrite of a
    `Datum` into the core syntax of `PrimSyn`.

    The `Expanded*` functions define what each rule of the source computes;
    the `Expand*` methods are the source's rules themselves, loops included,
    and each is proved to compute its function. */
module Expander {
  import opened Base
  import opened Datums
  import opened PrimSyn

  /** The source's classified expansion errors; the text payloads are not
      modelled. The last two variants stand for panics of the source. */
  datatype ExpanderError =
    | IllegalNonatomic
    | IllegalNumberOfArgs
    | IdentifierExpected
    | ListExpected
    | CondElseExpected
    | IllegalContext
    | StringExpected
    | UnexpectedEof
    /** a `todo!()` arm: quasiquote, `,@`, and data with no expression form */
    | Unsupported
    /** the unchecked `ls[0]` / `ls[1]` of the final `cond` clause */
    | IndexOutOfBounds

  type ExpanderResult<T> = Result<T, ExpanderError>

  /** The four forms that are legal only at top level. */
  const TopLevelKeywords: set<string> := {"define", "define-record", "import", "export"}

  /** The special forms recognised in expression position. */
  const ExpressionKeywords: set<string> :=
    {"quote", "lambda", "if", "cond", "case", "and", "or", "when", "unless", "let", "letrec", "begin"}

  /** Every head symbol `expand_expr` treats specially. */
  const Keywords: set<string> := TopLevelKeywords + ExpressionKeywords

  /** `split_three`: the first two elements and the rest, when there are at
      least two. */
  function SplitThree<T>(ls: seq<T>): (r: Option<(T, T, seq<T>)>)
    ensures r.Some? <==> |ls| >= 2
    ensures r.Some? ==> r.value.0 == ls[0] && r.value.1 == ls[1] && ls == [ls[0], ls[1]] + r.value.2
  {
    if |ls| >= 2 then Some((ls[0], ls[1], ls[2..])) else None
  }

  /** `acc` put in front of a successful result; errors pass through. */
  function PrependOk<T>(acc: seq<T>, r: ExpanderResult<seq<T>>): ExpanderResult<seq<T>> {
    match r
    case Ok(xs) => Ok(acc + xs)
    case Err(e) => Err(e)
  }

  /** Moving one element from a successful rest onto the accumulator. */
  lemma PrependOkShift<T>(acc: seq<T>, x: T, r: ExpanderResult<seq<T>>)
    ensures PrependOk(acc + [x], r) == PrependOk(acc, PrependOk([x], r))
  {
    if r.Ok? {
      assert acc + [x] + r.value == acc + ([x] + r.value);
    }
  }

  /** The empty accumulator changes nothing. */
  lemma PrependOkEmpty<T>(r: ExpanderResult<seq<T>>)
    ensures PrependOk([], r) == r
  {
    if r.Ok? {
      assert [] + r.value == r.value;
    }
  }

  // ---------------------------------------------------------------------
  // Expressions

  /** `expand_expr`. */
  function ExpandedExpr(d: Datum): ExpanderResult<Expr>
    decreases d, 2
  {
    match d
    case Bool(b) => Ok(Expr.Bool(b))
    case Fixnum(f) => Ok(Expr.Fixnum(f))
    case Char(c) => Ok(Expr.Char(c))
    case Vector(v) => Ok(Expr.Vector(v))
    case Str(s) => Ok(Expr.Str(s))
    case Eof => Err(UnexpectedEof)
    case Quote(prefix, q) =>
      (match prefix
       case Comma => Ok(Unquote(q))
       case Quote => Ok(Expr.Quote(q))
       case _ => Err(Unsupported))
    case Symbol(s) => Ok(Expr.Symbol(s))
    case List(ds) =>
      if ds == [] then Err(IllegalNonatomic)
      else if ds[0].Symbol? && ds[0].name in Keywords then ExpandedKeywordForm(ds[0].name, ds[1..])
      else
        var rator :- ExpandedExpr(ds[0]);
        var rands :- ExpandedSeq(ds[1..]);
        Ok(ProcCall(rator, rands))
    case _ => Err(Unsupported)
  }

  /** The keyword arms of `expand_expr`, applied to the elements after the
      keyword. */
  function ExpandedKeywordForm(kw: string, tail: seq<Datum>): ExpanderResult<Expr>
    requires kw in Keywords
    decreases tail, 1
  {
    if kw in TopLevelKeywords then Err(IllegalContext)
    else if kw == "quote" then Ok(Expr.Quote(Datum.List(tail)))
    else if kw == "lambda" then ExpandedLambda(tail)
    else if kw == "if" then ExpandedIf(tail)
    else if kw == "cond" then ExpandedCond(tail)
    else if kw == "case" then ExpandedCase(tail)
    else if kw == "and" then
      var es :- ExpandedSeq(tail); Ok(And(es))
    else if kw == "or" then
      var es :- ExpandedSeq(tail); Ok(Or(es))
    else if kw == "when" then
      var tb :- ExpandedTestAndBody(tail); Ok(When(tb.0, tb.1))
    else if kw == "unless" then
      var tb :- ExpandedTestAndBody(tail); Ok(Unless(tb.0, tb.1))
    else if kw == "let" || kw == "letrec" then ExpandedLet(tail)
    else
      var es :- ExpandedSeq(tail); Ok(Begin(es))
  }

  /** Each datum expanded in order; the first failure aborts
      (the `for` loops that push into a `Vec`, and `expand_helper`). */
  function ExpandedSeq(ds: seq<Datum>): ExpanderResult<Sequence>
    decreases ds, 0
  {
    if ds == [] then Ok([])
    else
      var e :- ExpandedExpr(ds[0]);
      var es :- ExpandedSeq(ds[1..]);
      Ok([e] + es)
  }

  /** `expand_lambda`. */
  function ExpandedLambda(ds: seq<Datum>): ExpanderResult<Expr>
    decreases ds, 0
  {
    if ds == [] then Err(IllegalNumberOfArgs)
    else
      match ds[0]
      case List(fs) =>
        if !AllSymbols(fs) then Err(IdentifierExpected)
        else if |ds| != 2 then Err(IllegalNumberOfArgs)
        else
          var body :- ExpandedExpr(ds[1]);
          Ok(Lambda(SymbolNames(fs), body))
      case _ => Err(ListExpected)
  }

  /** `expand_if`. */
  function ExpandedIf(ds: seq<Datum>): ExpanderResult<Expr>
    decreases ds, 0
  {
    if |ds| != 3 then Err(IllegalNumberOfArgs)
    else
      var c :- ExpandedExpr(ds[0]);
      var t :- ExpandedExpr(ds[1]);
      var e :- ExpandedExpr(ds[2]);
      Ok(If(c, t, e))
  }

  /** One non-final `cond` clause: a two-element list. */
  function ExpandedCondBranch(d: Datum): ExpanderResult<(Expr, Expr)>
    decreases d, 0
  {
    match d
    case List(bs) =>
      if |bs| == 2 then
        var test :- ExpandedExpr(bs[0]);
        var result :- ExpandedExpr(bs[1]);
        Ok((test, result))
      else Err(ListExpected)
    case _ => Err(ListExpected)
  }

  /** `expand_cond_branches`. */
  function ExpandedCondBranches(ds: seq<Datum>): ExpanderResult<seq<(Expr, Expr)>>
    decreases ds, 0
  {
    if ds == [] then Ok([])
    else
      var b :- ExpandedCondBranch(ds[0]);
      var bs :- ExpandedCondBranches(ds[1..]);
      Ok([b] + bs)
  }

  /** `expand_cond_else`: a list whose first element is the symbol `else`;
      its second element is the else expression and anything after it is
      ignored. Fewer than two elements is an out-of-bounds index. */
  function ExpandedCondElse(d: Datum): ExpanderResult<Expr>
    decreases d, 0
  {
    match d
    case List(ls) =>
      if |ls| < 2 then Err(IndexOutOfBounds)
      else if ls[0] == Datum.Symbol("else") then ExpandedExpr(ls[1])
      else Err(CondElseExpected)
    case _ => Err(ListExpected)
  }

  /** `expand_cond`: the clauses before the last, then the final else. */
  function ExpandedCond(ds: seq<Datum>): ExpanderResult<Expr>
    decreases ds, 0
  {
    if ds == [] then Err(IllegalNumberOfArgs)
    else
      var branches :- ExpandedCondBranches(ds[..|ds| - 1]);
      var e :- ExpandedCondElse(ds[|ds| - 1]);
      Ok(Cond(branches, e))
  }

  /** `expand_case_branches`: each clause is a list; an empty one is skipped;
      otherwise its head must be a list of data, and the stored sequence is
      the expansion of those data. */
  function ExpandedCaseBranches(ds: seq<Datum>): ExpanderResult<seq<(seq<Datum>, Sequence)>>
    decreases ds, 0
  {
    if ds == [] then Ok([])
    else
      match ds[0]
      case List(ls) =>
        if ls == [] then ExpandedCaseBranches(ds[1..])
        else (
          match ls[0]
          case List(data) =>
            var exprs :- ExpandedSeq(data);
            var rest :- ExpandedCaseBranches(ds[1..]);
            Ok([(data, exprs)] + rest)
          case _ => Err(ListExpected))
      case _ => Err(ListExpected)
  }

  /** `expand_case_else`: every element of the final clause, the `else`
      symbol included, expanded in order. */
  function ExpandedCaseElse(d: Datum): ExpanderResult<Sequence>
    decreases d, 0
  {
    match d
    case List(es) => ExpandedSeq(es)
    case _ => Err(ListExpected)
  }

  /** `expand_case`: the key, then ALL clauses (the final one included) as
      branches, then the final clause as the else sequence. */
  function ExpandedCase(ds: seq<Datum>): ExpanderResult<Expr>
    decreases ds, 0
  {
    if |ds| < 2 then Err(IllegalNumberOfArgs)
    else
      var key :- ExpandedExpr(ds[0]);
      var clauses :- ExpandedCaseBranches(ds[1..]);
      var els :- ExpandedCaseElse(ds[|ds| - 1]);
      Ok(Case(key, clauses, els))
  }

  /** `when_unless_helper` before the final constructor: a test and a
      possibly empty body. */
  function ExpandedTestAndBody(ds: seq<Datum>): ExpanderResult<(Expr, Sequence)>
    decreases ds, 0
  {
    if ds == [] then Err(IllegalNumberOfArgs)
    else
      var test :- ExpandedExpr(ds[0]);
      var body :- ExpandedSeq(ds[1..]);
      Ok((test, body))
  }

  /** One binding of `expand_let_branches`: `(name expr)`. */
  function ExpandedLetBinding(d: Datum): ExpanderResult<BindingSpec>
    decreases d, 0
  {
    match d
    case List(ls) =>
      (match SplitThree(ls)
       case None => Err(ListExpected)
       case Some((name, init, rest)) =>
         if rest != [] then Err(IllegalNumberOfArgs)
         else if !name.Symbol? then Err(ListExpected)
         else
           var e :- ExpandedExpr(init);
           Ok((name.name, e)))
    case _ => Err(ListExpected)
  }

  /** `expand_let_branches`. */
  function ExpandedLetBindings(ds: seq<Datum>): ExpanderResult<seq<BindingSpec>>
    decreases ds, 0
  {
    if ds == [] then Ok([])
    else
      var b :- ExpandedLetBinding(ds[0]);
      var bs :- ExpandedLetBindings(ds[1..]);
      Ok([b] + bs)
  }

  /** `expand_let` and `expand_letrec` (identical in the source: both build
      `Let`): every element but the last is a binding, the last is the body. */
  function ExpandedLet(ds: seq<Datum>): ExpanderResult<Expr>
    decreases ds, 0
  {
    if ds == [] then Err(IllegalNumberOfArgs)
    else
      var bindings :- ExpandedLetBindings(ds[..|ds| - 1]);
      var body :- ExpandedExpr(ds[|ds| - 1]);
      Ok(Let(bindings, body))
  }

  // ---------------------------------------------------------------------
  // Top-level forms

  /** `expand_define`: exactly two elements after the keyword. */
  function ExpandedDefine(ds: seq<Datum>): ExpanderResult<Def> {
    match SplitThree(ds)
    case None => Err(IllegalNumberOfArgs)
    case Some((formals, body, rest)) =>
      if rest != [] then Err(IllegalNumberOfArgs)
      else
        match formals
        case List(ls) =>
          if !AllSymbols(ls) then Err(IdentifierExpected)
          else if ls == [] then Err(ListExpected)
          else
            var names := SymbolNames(ls);
            var b :- ExpandedExpr(body);
            Ok(DefFunc(names[0], names[1..], b))
        case Symbol(name) =>
          var b :- ExpandedExpr(body);
          Ok(DefValue(name, b))
        case _ => Err(IdentifierExpected)
  }

  /** `expand_define_record`: a symbol and one list of symbols. */
  function ExpandedDefineRecord(ds: seq<Datum>): (r: ExpanderResult<Def>)
    ensures r.Ok? ==>
      (|ds| == 2 && r.value.DefRecord? && ds[0] == Datum.Symbol(r.value.name) && ds[1].List? &&
       |r.value.members| == |ds[1].elems| &&
       forall i :: 0 <= i < |ds[1].elems| ==> ds[1].elems[i] == Datum.Symbol(r.value.members[i]))
    ensures r.Err? ==> r.error == IllegalNumberOfArgs || r.error == IdentifierExpected || r.error == ListExpected
  {
    if ds == [] then Err(IllegalNumberOfArgs)
    else if !ds[0].IsSymbol() then Err(IdentifierExpected)
    else if |ds| != 2 then Err(IllegalNumberOfArgs)
    else
      match ds[1]
      case List(ms) =>
        if AllSymbols(ms) then Ok(DefRecord(ds[0].GetSymbolName(), SymbolNames(ms)))
        else Err(IdentifierExpected)
      case _ => Err(ListExpected)
  }

  /** `expand_import`: one or more strings. */
  function ExpandedImport(ds: seq<Datum>): (r: ExpanderResult<Import>)
    ensures r.Ok? ==>
      (ds != [] && r.value.Import? && |r.value.names| == |ds| &&
       forall i :: 0 <= i < |ds| ==> ds[i] == Datum.Str(r.value.names[i]))
    ensures r.Err? ==> r.error == StringExpected && (ds == [] || exists i :: 0 <= i < |ds| && !ds[i].Str?)
  {
    if AllStrings(ds) && ds != [] then Ok(Import.Import(StringPayloads(ds)))
    else Err(StringExpected)
  }

  /** `expand_export`: one or more symbols; failure is `StringExpected`. */
  function ExpandedExport(ds: seq<Datum>): (r: ExpanderResult<Import>)
    ensures r.Ok? ==>
      (ds != [] && r.value.Export? && |r.value.names| == |ds| &&
       forall i :: 0 <= i < |ds| ==> ds[i] == Datum.Symbol(r.value.names[i]))
    ensures r.Err? ==> r.error == StringExpected && (ds == [] || exists i :: 0 <= i < |ds| && !ds[i].Symbol?)
  {
    if AllSymbols(ds) && ds != [] then Ok(Export(SymbolNames(ds)))
    else Err(StringExpected)
  }

  /** What one top-level form contributes to the program. */
  datatype Entry = ImportEntry(imp: Import) | StmtEntry(stmt: Stmt)

  /** The dispatch of `expand_datum`. */
  function ExpandedEntry(d: Datum): ExpanderResult<Entry> {
    if d.List? && d.elems == [] then Err(IllegalNonatomic)
    else if d.List? && d.elems[0].Symbol? && d.elems[0].name in Keywords then
      var kw, tail := d.elems[0].name, d.elems[1..];
      if kw == "define" then
        var df :- ExpandedDefine(tail); Ok(StmtEntry(Stmt.Def(df)))
      else if kw == "define-record" then
        var df :- ExpandedDefineRecord(tail); Ok(StmtEntry(Stmt.Def(df)))
      else if kw == "import" then
        var i :- ExpandedImport(tail); Ok(ImportEntry(i))
      else if kw == "export" then
        var i :- ExpandedExport(tail); Ok(ImportEntry(i))
      else
        var e :- ExpandedKeywordForm(kw, tail); Ok(StmtEntry(Stmt.Expr(e)))
    else
      var e :- ExpandedExpr(d); Ok(StmtEntry(Stmt.Expr(e)))
  }

  /** A program with one more entry at the end of the matching list. */
  function Append(p: Program, entry: Entry): Program {
    match entry
    case ImportEntry(i) => p.(imports := p.imports + [i])
    case StmtEntry(s) => p.(stmts := p.stmts + [s])
  }

  /** `expand_datum`: the program after one top-level form. */
  function ExpandedDatum(d: Datum, p: Program): ExpanderResult<Program> {
    var entry :- ExpandedEntry(d);
    Ok(Append(p, entry))
  }

  /** The loop of `expand_prgrm`: forms processed in order, the first
      failure aborts. */
  function ExpandedForms(vs: seq<Datum>, p: Program): ExpanderResult<Program> {
    if vs == [] then Ok(p)
    else
      var p' :- ExpandedDatum(vs[0], p);
      ExpandedForms(vs[1..], p')
  }

  /** `expand_prgrm`: a list is a sequence of forms; anything else is a
      single form. */
  function ExpandedProgram(src: Datum): ExpanderResult<Program> {
    match src
    case List(vs) => ExpandedForms(vs, Program.Init())
    case _ => ExpandedDatum(src, Program.Init())
  }

  // ---------------------------------------------------------------------
  // The rules as the source runs them

  /** `expand_expr`. */
  method ExpandExpr(d: Datum) returns (r: ExpanderResult<Expr>)
    ensures r == ExpandedExpr(d)
    decreases d, 2
  {
    match d {
      case Bool(b) => r := Ok(Expr.Bool(b));
      case Fixnum(f) => r := Ok(Expr.Fixnum(f));
      case Char(c) => r := Ok(Expr.Char(c));
      case Vector(v) => r := Ok(Expr.Vector(v));
      case Str(s) => r := Ok(Expr.Str(s));
      case Eof => r := Err(UnexpectedEof);
      case Quote(prefix, q) =>
        match prefix {
          case Comma => r := Ok(Unquote(q));
          case Quote => r := Ok(Expr.Quote(q));
          case _ => r := Err(Unsupported);
        }
      case Symbol(s) => r := Ok(Expr.Symbol(s));
      case List(ds) =>
        if ds == [] {
          return Err(IllegalNonatomic);
        }
        var head, tail := ds[0], ds[1..];
        if head.Symbol? && head.name in Keywords {
          r := ExpandKeywordForm(head.name, tail);
        } else {
          var rator :- ExpandExpr(head);
          var rands :- ExpandSeq(tail);
          r := Ok(ProcCall(rator, rands));
        }
      case _ => r := Err(Unsupported);
    }
  }

  /** The keyword arms of `expand_expr`. */
  method ExpandKeywordForm(kw: string, tail: seq<Datum>) returns (r: ExpanderResult<Expr>)
    requires kw in Keywords
    ensures r == ExpandedKeywordForm(kw, tail)
    decreases tail, 1
  {
    if kw in TopLevelKeywords {
      r := Err(IllegalContext);
    } else if kw == "quote" {
      r := Ok(Expr.Quote(Datum.List(tail)));
    } else if kw == "lambda" {
      r := ExpandLambda(tail);
    } else if kw == "if" {
      r := ExpandIf(tail);
    } else if kw == "cond" {
      r := ExpandCond(tail);
    } else if kw == "case" {
      r := ExpandCase(tail);
    } else if kw == "and" {
      var es :- ExpandSeq(tail);
      r := Ok(And(es));
    } else if kw == "or" {
      var es :- ExpandSeq(tail);
      r := Ok(Or(es));
    } else if kw == "when" {
      var tb :- ExpandTestAndBody(tail);
      r := Ok(When(tb.0, tb.1));
    } else if kw == "unless" {
      var tb :- ExpandTestAndBody(tail);
      r := Ok(Unless(tb.0, tb.1));
    } else if kw == "let" || kw == "letrec" {
      r := ExpandLet(tail);
    } else {
      var es :- ExpandSeq(tail);
      r := Ok(Begin(es));
    }
  }

  /** The loops that expand each datum of a slice and push the result. */
  method ExpandSeq(ds: seq<Datum>) returns (r: ExpanderResult<Sequence>)
    ensures r == ExpandedSeq(ds)
    decreases ds, 0
  {
    var exprs: Sequence := [];
    var i := 0;
    assert ds[0..] == ds;
    PrependOkEmpty(ExpandedSeq(ds));
    while i < |ds|
      invariant 0 <= i <= |ds|
      invariant ExpandedSeq(ds) == PrependOk(exprs, ExpandedSeq(ds[i..]))
    {
      assert ds[i..][0] == ds[i] && ds[i..][1..] == ds[i + 1..];
      var e :- ExpandExpr(ds[i]);
      PrependOkShift(exprs, e, ExpandedSeq(ds[i + 1..]));
      exprs := exprs + [e];
      i := i + 1;
    }
    assert exprs + [] == exprs;
    return Ok(exprs);
  }

  /** `expand_lambda`. */
  method ExpandLambda(ds: seq<Datum>) returns (r: ExpanderResult<Expr>)
    ensures r == ExpandedLambda(ds)
    decreases ds, 0
  {
    if ds == [] {
      return Err(IllegalNumberOfArgs);
    }
    match ds[0] {
      case List(fs) =>
        if !AllSymbols(fs) {
          return Err(IdentifierExpected);
        }
        if |ds| != 2 {
          return Err(IllegalNumberOfArgs);
        }
        var formals := SymbolNames(fs);
        var body :- ExpandExpr(ds[1]);
        r := Ok(Lambda(formals, body));
      case _ => r := Err(ListExpected);
    }
  }

  /** `expand_if`. */
  method ExpandIf(ds: seq<Datum>) returns (r: ExpanderResult<Expr>)
    ensures r == ExpandedIf(ds)
    decreases ds, 0
  {
    if |ds| != 3 {
      return Err(IllegalNumberOfArgs);
    }
    var c :- ExpandExpr(ds[0]);
    var t :- ExpandExpr(ds[1]);
    var e :- ExpandExpr(ds[2]);
    r := Ok(If(c, t, e));
  }

  /** `expand_cond_branches`. */
  method ExpandCondBranches(ds: seq<Datum>) returns (r: ExpanderResult<seq<(Expr, Expr)>>)
    ensures r == ExpandedCondBranches(ds)
    decreases ds, 0
  {
    var branches: seq<(Expr, Expr)> := [];
    var i := 0;
    assert ds[0..] == ds;
    PrependOkEmpty(ExpandedCondBranches(ds));
    while i < |ds|
      invariant 0 <= i <= |ds|
      invariant ExpandedCondBranches(ds) == PrependOk(branches, ExpandedCondBranches(ds[i..]))
    {
      assert ds[i..][0] == ds[i] && ds[i..][1..] == ds[i + 1..];
      match ds[i] {
        case List(bs) =>
          if |bs| != 2 {
            return Err(ListExpected);
          }
          var test :- ExpandExpr(bs[0]);
          var result :- ExpandExpr(bs[1]);
          PrependOkShift(branches, (test, result), ExpandedCondBranches(ds[i + 1..]));
          branches := branches + [(test, result)];
        case _ =>
          return Err(ListExpected);
      }
      i := i + 1;
    }
    assert branches + [] == branches;
    return Ok(branches);
  }

  /** `expand_cond_else`. */
  method ExpandCondElse(d: Datum) returns (r: ExpanderResult<Expr>)
    ensures r == ExpandedCondElse(d)
    decreases d, 0
  {
    match d {
      case List(ls) =>
        if |ls| < 2 {
          return Err(IndexOutOfBounds);
        }
        var car, cdr := ls[0], ls[1];
        if car == Datum.Symbol("else") {
          r := ExpandExpr(cdr);
        } else {
          r := Err(CondElseExpected);
        }
      case _ => r := Err(ListExpected);
    }
  }

  /** `expand_cond`. */
  method ExpandCond(ds: seq<Datum>) returns (r: ExpanderResult<Expr>)
    ensures r == ExpandedCond(ds)
    decreases ds, 0
  {
    if ds == [] {
      return Err(IllegalNumberOfArgs);
    }
    var branches :- ExpandCondBranches(ds[..|ds| - 1]);
    var e :- ExpandCondElse(ds[|ds| - 1]);
    r := Ok(Cond(branches, e));
  }

  /** `expand_case_branches`. */
  method ExpandCaseBranches(ds: seq<Datum>) returns (r: ExpanderResult<seq<(seq<Datum>, Sequence)>>)
    ensures r == ExpandedCaseBranches(ds)
    decreases ds, 0
  {
    var branches: seq<(seq<Datum>, Sequence)> := [];
    var i := 0;
    assert ds[0..] == ds;
    PrependOkEmpty(ExpandedCaseBranches(ds));
    while i < |ds|
      invariant 0 <= i <= |ds|
      invariant ExpandedCaseBranches(ds) == PrependOk(branches, ExpandedCaseBranches(ds[i..]))
    {
      assert ds[i..][0] == ds[i] && ds[i..][1..] == ds[i + 1..];
      match ds[i] {
        case List(ls) =>
          if ls != [] {
            match ls[0] {
              case List(data) =>
                var exprs :- ExpandSeq(data);
                PrependOkShift(branches, (data, exprs), ExpandedCaseBranches(ds[i + 1..]));
                branches := branches + [(data, exprs)];
              case _ =>
                return Err(ListExpected);
            }
          }
        case _ =>
          return Err(ListExpected);
      }
      i := i + 1;
    }
    assert branches + [] == branches;
    return Ok(branches);
  }

  /** `expand_case_else`. */
  method ExpandCaseElse(d: Datum) returns (r: ExpanderResult<Sequence>)
    ensures r == ExpandedCaseElse(d)
    decreases d, 0
  {
    match d {
      case List(es) => r := ExpandSeq(es);
      case _ => r := Err(ListExpected);
    }
  }

  /** `expand_case`. */
  method ExpandCase(ds: seq<Datum>) returns (r: ExpanderResult<Expr>)
    ensures r == ExpandedCase(ds)
    decreases ds, 0
  {
    if |ds| < 2 {
      return Err(IllegalNumberOfArgs);
    }
    var key :- ExpandExpr(ds[0]);
    var clauses :- ExpandCaseBranches(ds[1..]);
    var els :- ExpandCaseElse(ds[|ds| - 1]);
    r := Ok(Case(key, clauses, els));
  }

  /** `when_unless_helper`, without the final constructor. */
  method ExpandTestAndBody(ds: seq<Datum>) returns (r: ExpanderResult<(Expr, Sequence)>)
    ensures r == ExpandedTestAndBody(ds)
    decreases ds, 0
  {
    if ds == [] {
      return Err(IllegalNumberOfArgs);
    }
    var test :- ExpandExpr(ds[0]);
    var body :- ExpandSeq(ds[1..]);
    r := Ok((test, body));
  }

  /** `expand_let_branches`. */
  method ExpandLetBindings(ds: seq<Datum>) returns (r: ExpanderResult<seq<BindingSpec>>)
    ensures r == ExpandedLetBindings(ds)
    decreases ds, 0
  {
    var bindings: seq<BindingSpec> := [];
    var i := 0;
    assert ds[0..] == ds;
    PrependOkEmpty(ExpandedLetBindings(ds));
    while i < |ds|
      invariant 0 <= i <= |ds|
      invariant ExpandedLetBindings(ds) == PrependOk(bindings, ExpandedLetBindings(ds[i..]))
    {
      assert ds[i..][0] == ds[i] && ds[i..][1..] == ds[i + 1..];
      match ds[i] {
        case List(ls) =>
          match SplitThree(ls) {
            case None =>
              return Err(ListExpected);
            case Some((name, init, rest)) =>
              if rest != [] {
                return Err(IllegalNumberOfArgs);
              }
              if !name.Symbol? {
                return Err(ListExpected);
              }
              var e :- ExpandExpr(init);
              PrependOkShift(bindings, (name.name, e), ExpandedLetBindings(ds[i + 1..]));
              bindings := bindings + [(name.name, e)];
          }
        case _ =>
          return Err(ListExpected);
      }
      i := i + 1;
    }
    assert bindings + [] == bindings;
    return Ok(bindings);
  }

  /** `expand_let` and `expand_letrec`. */
  method ExpandLet(ds: seq<Datum>) returns (r: ExpanderResult<Expr>)
    ensures r == ExpandedLet(ds)
    decreases ds, 0
  {
    if ds == [] {
      return Err(IllegalNumberOfArgs);
    }
    var bindings :- ExpandLetBindings(ds[..|ds| - 1]);
    var body :- ExpandExpr(ds[|ds| - 1]);
    r := Ok(Let(bindings, body));
  }

  /** `expand_define`. */
  method ExpandDefine(ds: seq<Datum>) returns (r: ExpanderResult<Def>)
    ensures r == ExpandedDefine(ds)
  {
    match SplitThree(ds) {
      case None =>
        r := Err(IllegalNumberOfArgs);
      case Some((formals, body, rest)) =>
        if rest != [] {
          return Err(IllegalNumberOfArgs);
        }
        match formals {
          case List(ls) =>
            if !AllSymbols(ls) {
              return Err(IdentifierExpected);
            }
            var names := SymbolNames(ls);
            if names == [] {
              return Err(ListExpected);
            }
            var b :- ExpandExpr(body);
            r := Ok(DefFunc(names[0], names[1..], b));
          case Symbol(name) =>
            var b :- ExpandExpr(body);
            r := Ok(DefValue(name, b));
          case _ =>
            r := Err(IdentifierExpected);
        }
    }
  }

  /** `expand_datum`: the program after one top-level form; on failure the
      program is left as it was. */
  method ExpandDatum(d: Datum, prgrm: Program) returns (r: ExpanderResult<Program>)
    ensures r == ExpandedDatum(d, prgrm)
  {
    if d.List? && d.elems == [] {
      return Err(IllegalNonatomic);
    }
    if d.List? && d.elems[0].Symbol? && d.elems[0].name in Keywords {
      var kw, tail := d.elems[0].name, d.elems[1..];
      if kw == "define" {
        var df :- ExpandDefine(tail);
        r := Ok(prgrm.(stmts := prgrm.stmts + [Stmt.Def(df)]));
      } else if kw == "define-record" {
        var df :- ExpandedDefineRecord(tail);
        r := Ok(prgrm.(stmts := prgrm.stmts + [Stmt.Def(df)]));
      } else if kw == "import" {
        var i :- ExpandedImport(tail);
        r := Ok(prgrm.(imports := prgrm.imports + [i]));
      } else if kw == "export" {
        var i :- ExpandedExport(tail);
        r := Ok(prgrm.(imports := prgrm.imports + [i]));
      } else {
        var e :- ExpandKeywordForm(kw, tail);
        r := Ok(prgrm.(stmts := prgrm.stmts + [Stmt.Expr(e)]));
      }
    } else {
      var e :- ExpandExpr(d);
      r := Ok(prgrm.(stmts := prgrm.stmts + [Stmt.Expr(e)]));
    }
  }

  /** `expand_prgrm`. */
  method ExpandPrgrm(src: Datum) returns (r: ExpanderResult<Program>)
    ensures r == ExpandedProgram(src)
  {
    var prgrm := Program.Init();
    match src {
      case List(vs) =>
        var i := 0;
        assert vs[0..] == vs;
        while i < |vs|
          invariant 0 <= i <= |vs|
          invariant ExpandedForms(vs, Program.Init()) == ExpandedForms(vs[i..], prgrm)
        {
          assert vs[i..][0] == vs[i] && vs[i..][1..] == vs[i + 1..];
          prgrm :- ExpandDatum(vs[i], prgrm);
          i := i + 1;
        }
        assert vs[i..] == [];
        r := Ok(prgrm);
      case _ =>
        r := ExpandDatum(src, prgrm);
    }
  }
}
