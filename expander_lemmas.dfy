/** What the expander's rules promise, stated over the `Expanded*`
    functions (and so over the `Expand*` methods, which compute them). */
module ExpanderLemmas {
  import opened Base
  import opened Datums
  import opened PrimSyn
  import opened Expander

  /** A list form headed by the symbol `kw`. */
  function Form(kw: string, tail: seq<Datum>): Datum {
    Datum.List([Datum.Symbol(kw)] + tail)
  }

  /** A keyword at the head of a list selects its keyword rule, applied to
      the rest of the list. */
  lemma KeywordDispatch(kw: string, tail: seq<Datum>)
    requires kw in Keywords
    ensures ExpandedExpr(Form(kw, tail)) == ExpandedKeywordForm(kw, tail)
  {
    assert ([Datum.Symbol(kw)] + tail)[1..] == tail;
  }

  // ---------------------------------------------------------------------
  // Sequences of operands

  /** An operand sequence expands exactly when every element does, to the
      elements' expansions in order. */
  lemma {:induction false} SeqAllOk(ds: seq<Datum>)
    ensures ExpandedSeq(ds).Ok? <==> forall i :: 0 <= i < |ds| ==> ExpandedExpr(ds[i]).Ok?
    ensures ExpandedSeq(ds).Ok? ==>
      |ExpandedSeq(ds).value| == |ds| &&
      forall i :: 0 <= i < |ds| ==> ExpandedSeq(ds).value[i] == ExpandedExpr(ds[i]).value
  {
    if ds != [] {
      SeqAllOk(ds[1..]);
      assert forall i :: 1 <= i < |ds| ==> ds[1..][i - 1] == ds[i];
    }
  }

  /** The first failing element decides the error. */
  lemma {:induction false} SeqFirstFailure(ds: seq<Datum>, k: nat)
    requires k < |ds|
    requires forall i :: 0 <= i < k ==> ExpandedExpr(ds[i]).Ok?
    requires ExpandedExpr(ds[k]).Err?
    ensures ExpandedSeq(ds) == Err(ExpandedExpr(ds[k]).error)
  {
    if k > 0 {
      assert forall i :: 0 <= i < k - 1 ==> ds[1..][i] == ds[i + 1];
      SeqFirstFailure(ds[1..], k - 1);
    }
  }

  // ---------------------------------------------------------------------
  // Atoms and quotation

  /** `()` is rejected in expression position and at top level. */
  lemma EmptyListIllegal(p: Program)
    ensures ExpandedExpr(Datum.List([])) == Err(IllegalNonatomic)
    ensures ExpandedEntry(Datum.List([])) == Err(IllegalNonatomic)
    ensures ExpandedDatum(Datum.List([]), p) == Err(IllegalNonatomic)
  {
  }

  /** Atoms become the matching expression; other data without an
      expression form are unsupported. */
  lemma Atoms(d: Datum)
    ensures d.Bool? ==> ExpandedExpr(d) == Ok(Expr.Bool(d.b))
    ensures d.Fixnum? ==> ExpandedExpr(d) == Ok(Expr.Fixnum(d.n))
    ensures d.Char? ==> ExpandedExpr(d) == Ok(Expr.Char(d.c))
    ensures d.Str? ==> ExpandedExpr(d) == Ok(Expr.Str(d.s))
    ensures d.Symbol? ==> ExpandedExpr(d) == Ok(Expr.Symbol(d.name))
    ensures d.Vector? ==> ExpandedExpr(d) == Ok(Expr.Vector(d.elems))
    ensures d.Eof? ==> ExpandedExpr(d) == Err(UnexpectedEof)
    ensures d.DottedList? || d.ByteVector? || d.Label? || d.Set? || d.Ellipses? || d.Null? || d.Undefined?
      ==> ExpandedExpr(d) == Err(Unsupported)
  {
  }

  /** `'d` and `,d` keep their payload unexpanded; quasiquote and `,@` are
      unsupported; `(quote ...)` quotes its raw tail as one list. */
  lemma Quotation(q: Datum, tail: seq<Datum>)
    ensures ExpandedExpr(Datum.Quote(AbbrevPrefix.Quote, q)) == Ok(Expr.Quote(q))
    ensures ExpandedExpr(Datum.Quote(AbbrevPrefix.Comma, q)) == Ok(Unquote(q))
    ensures ExpandedExpr(Datum.Quote(AbbrevPrefix.Quasi, q)) == Err(Unsupported)
    ensures ExpandedExpr(Datum.Quote(AbbrevPrefix.CommaAt, q)) == Err(Unsupported)
    ensures ExpandedExpr(Form("quote", tail)) == Ok(Expr.Quote(Datum.List(tail)))
  {
    KeywordDispatch("quote", tail);
  }

  /** `define`, `define-record`, `import` and `export` are illegal in
      expression position, whatever follows them. */
  lemma TopLevelOnly(kw: string, tail: seq<Datum>)
    requires kw in TopLevelKeywords
    ensures ExpandedExpr(Form(kw, tail)) == Err(IllegalContext)
  {
    KeywordDispatch(kw, tail);
  }

  // ---------------------------------------------------------------------
  // Procedure calls

  /** A list whose head is not a keyword is a call: the head expanded as
      the operator, every other element as an operand, in order. It
      succeeds exactly when all of them do, and the operator's failure
      comes first. */
  lemma ProcCallShape(rator: Datum, rands: seq<Datum>)
    requires !(rator.Symbol? && rator.name in Keywords)
    ensures ExpandedExpr(rator).Err? ==>
      ExpandedExpr(Datum.List([rator] + rands)) == Err(ExpandedExpr(rator).error)
    ensures ExpandedExpr(rator).Ok? ==>
      ExpandedExpr(Datum.List([rator] + rands)) ==
        (if ExpandedSeq(rands).Ok? then Ok(ProcCall(ExpandedExpr(rator).value, ExpandedSeq(rands).value))
         else Err(ExpandedSeq(rands).error))
    ensures ExpandedExpr(Datum.List([rator] + rands)).Ok? <==>
      ExpandedExpr(rator).Ok? && forall i :: 0 <= i < |rands| ==> ExpandedExpr(rands[i]).Ok?
    ensures ExpandedExpr(Datum.List([rator] + rands)).Ok? ==>
      var call := ExpandedExpr(Datum.List([rator] + rands)).value;
      call.ProcCall? && |call.rands| == |rands| &&
      forall i :: 0 <= i < |rands| ==> call.rands[i] == ExpandedExpr(rands[i]).value
  {
    assert ([rator] + rands)[0] == rator;
    assert ([rator] + rands)[1..] == rands;
    SeqAllOk(rands);
  }

  // ---------------------------------------------------------------------
  // Special forms

  /** `if` takes exactly three operands; any other number is
      `IllegalNumberOfArgs`. */
  lemma IfArity(ds: seq<Datum>)
    ensures ExpandedExpr(Form("if", ds)).Ok? ==> |ds| == 3
    ensures |ds| != 3 ==> ExpandedExpr(Form("if", ds)) == Err(IllegalNumberOfArgs)
    ensures |ds| == 3 && ExpandedExpr(ds[0]).Ok? && ExpandedExpr(ds[1]).Ok? && ExpandedExpr(ds[2]).Ok? ==>
      ExpandedExpr(Form("if", ds)) ==
        Ok(If(ExpandedExpr(ds[0]).value, ExpandedExpr(ds[1]).value, ExpandedExpr(ds[2]).value))
  {
    KeywordDispatch("if", ds);
  }

  /** `lambda` takes a list of symbols and exactly one body. */
  lemma LambdaShape(ds: seq<Datum>)
    ensures ExpandedLambda(ds).Ok? ==>
      |ds| == 2 && ds[0].List? && AllSymbols(ds[0].elems) &&
      ExpandedLambda(ds) == Ok(Lambda(SymbolNames(ds[0].elems), ExpandedExpr(ds[1]).value))
    ensures ds == [] ==> ExpandedLambda(ds) == Err(IllegalNumberOfArgs)
    ensures ds != [] && !ds[0].List? ==> ExpandedLambda(ds) == Err(ListExpected)
    ensures ds != [] && ds[0].List? && !AllSymbols(ds[0].elems) ==> ExpandedLambda(ds) == Err(IdentifierExpected)
    ensures ds != [] && ds[0].List? && AllSymbols(ds[0].elems) && |ds| != 2 ==>
      ExpandedLambda(ds) == Err(IllegalNumberOfArgs)
  {
  }

  /** A non-final `cond` clause is a two-element list. */
  lemma CondBranchShape(d: Datum)
    ensures ExpandedCondBranch(d).Ok? ==> d.List? && |d.elems| == 2
    ensures !(d.List? && |d.elems| == 2) ==> ExpandedCondBranch(d) == Err(ListExpected)
  {
  }

  /** The non-final clauses expand exactly when each of them does, one
      pair per clause, in order. */
  lemma {:induction false} CondBranchesAllOk(ds: seq<Datum>)
    ensures ExpandedCondBranches(ds).Ok? <==> forall i :: 0 <= i < |ds| ==> ExpandedCondBranch(ds[i]).Ok?
    ensures ExpandedCondBranches(ds).Ok? ==>
      |ExpandedCondBranches(ds).value| == |ds| &&
      forall i :: 0 <= i < |ds| ==> ExpandedCondBranches(ds).value[i] == ExpandedCondBranch(ds[i]).value
  {
    if ds != [] {
      CondBranchesAllOk(ds[1..]);
      assert forall i :: 1 <= i < |ds| ==> ds[1..][i - 1] == ds[i];
    }
  }

  /** The final `cond` clause must be a list of at least two elements
      headed by `else`; only its second element is used. */
  lemma CondElseShape(d: Datum)
    ensures !d.List? ==> ExpandedCondElse(d) == Err(ListExpected)
    ensures d.List? && |d.elems| >= 2 && d.elems[0] != Datum.Symbol("else") ==>
      ExpandedCondElse(d) == Err(CondElseExpected)
    ensures d.List? && |d.elems| >= 2 && d.elems[0] == Datum.Symbol("else") ==>
      ExpandedCondElse(d) == ExpandedExpr(d.elems[1])
    ensures d.List? && |d.elems| < 2 ==> ExpandedCondElse(d) == Err(IndexOutOfBounds)
  {
  }

  /** `cond` needs at least one clause; a successful `cond` has one
      branch per non-final clause and every such clause a two-element
      list, and its else is the second element of the final clause. */
  lemma CondShape(ds: seq<Datum>)
    ensures ExpandedExpr(Form("cond", [])) == Err(IllegalNumberOfArgs)
    ensures ExpandedCond(ds).Ok? ==>
      ds != [] &&
      |ExpandedCond(ds).value.branches| == |ds| - 1 &&
      (forall i :: 0 <= i < |ds| - 1 ==> ds[i].List? && |ds[i].elems| == 2) &&
      ds[|ds| - 1].List? && |ds[|ds| - 1].elems| >= 2 && ds[|ds| - 1].elems[0] == Datum.Symbol("else") &&
      Ok(ExpandedCond(ds).value.elseExpr) == ExpandedExpr(ds[|ds| - 1].elems[1])
  {
    KeywordDispatch("cond", []);
    if ds != [] {
      var init := ds[..|ds| - 1];
      CondBranchesAllOk(init);
      if ExpandedCond(ds).Ok? {
        forall i | 0 <= i < |ds| - 1
          ensures ds[i].List? && |ds[i].elems| == 2
        {
          assert init[i] == ds[i];
          CondBranchShape(init[i]);
        }
      }
    }
  }

  /** Clauses appended at the end: the result for the front is extended by
      the result for the new clause, and the front's failure comes first. */
  lemma {:induction false} CaseBranchesSnoc(ds: seq<Datum>, x: Datum)
    ensures ExpandedCaseBranches(ds + [x]) ==
      (if ExpandedCaseBranches(ds).Err? then Err(ExpandedCaseBranches(ds).error)
       else PrependOk(ExpandedCaseBranches(ds).value, ExpandedCaseBranches([x])))
  {
    if ds == [] {
      assert ds + [x] == [x];
      PrependOkEmpty(ExpandedCaseBranches([x]));
    } else {
      assert (ds + [x])[0] == ds[0];
      assert (ds + [x])[1..] == ds[1..] + [x];
      CaseBranchesSnoc(ds[1..], x);
      var r := ExpandedCaseBranches([x]);
      match ds[0]
      case List(ls) =>
        if ls != [] && ls[0].List? && ExpandedSeq(ls[0].elems).Ok? {
          var head := [(ls[0].elems, ExpandedSeq(ls[0].elems).value)];
          if ExpandedCaseBranches(ds[1..]).Ok? && r.Ok? {
            assert head + (ExpandedCaseBranches(ds[1..]).value + r.value)
              == (head + ExpandedCaseBranches(ds[1..]).value) + r.value;
          }
        }
      case _ =>
    }
  }

  /** An empty clause is skipped; otherwise a clause stores its datum list
      with that list's OWN expansion, and the rest of the clause is
      ignored. */
  lemma CaseBranchContents(data: seq<Datum>, body: seq<Datum>, ds: seq<Datum>)
    ensures ExpandedCaseBranches([Datum.List([])] + ds) == ExpandedCaseBranches(ds)
    ensures ExpandedCaseBranches([Datum.List([Datum.List(data)] + body)]) ==
      (if ExpandedSeq(data).Ok? then Ok([(data, ExpandedSeq(data).value)])
       else Err(ExpandedSeq(data).error))
  {
    assert ([Datum.List([])] + ds)[1..] == ds;
    assert [Datum.List([Datum.List(data)] + body)][1..] == [];
    assert ([Datum.List(data)] + body)[0] == Datum.List(data);
    if ExpandedSeq(data).Ok? {
      assert [(data, ExpandedSeq(data).value)] + [] == [(data, ExpandedSeq(data).value)];
    }
  }

  /** The else sequence of `case` is the expansion of every element of the
      final clause, the `else` symbol included. */
  lemma CaseElseIncludesElse(body: seq<Datum>)
    ensures ExpandedSeq(body).Ok? ==>
      ExpandedCaseElse(Form("else", body)) == Ok([Expr.Symbol("else")] + ExpandedSeq(body).value)
    ensures ExpandedSeq(body).Err? ==>
      ExpandedCaseElse(Form("else", body)) == Err(ExpandedSeq(body).error)
  {
    assert ([Datum.Symbol("else")] + body)[0] == Datum.Symbol("else");
    assert ([Datum.Symbol("else")] + body)[1..] == body;
    assert ExpandedCaseElse(Form("else", body)) == ExpandedSeq([Datum.Symbol("else")] + body);
    assert ExpandedExpr(Datum.Symbol("else")) == Ok(Expr.Symbol("else"));
  }

  /** Because the final clause is also expanded as a branch, a `case`
      whose final clause is `(else ...)` never expands: once the key and
      the other clauses expand, the `else` head is `ListExpected`. */
  lemma CaseWithElseFails(key: Datum, clauses: seq<Datum>, body: seq<Datum>)
    ensures ExpandedCase([key] + clauses + [Form("else", body)]).Err?
    ensures ExpandedExpr(key).Ok? && ExpandedCaseBranches(clauses).Ok? ==>
      ExpandedCase([key] + clauses + [Form("else", body)]) == Err(ListExpected)
  {
    var ds := [key] + clauses + [Form("else", body)];
    assert ds[0] == key;
    assert ds[1..] == clauses + [Form("else", body)];
    CaseBranchesSnoc(clauses, Form("else", body));
    assert ([Datum.Symbol("else")] + body)[0] == Datum.Symbol("else");
    assert [Form("else", body)][1..] == [];
  }

  /** `case` needs a key and at least one clause. */
  lemma CaseArity(ds: seq<Datum>)
    ensures |ds| < 2 ==> ExpandedExpr(Form("case", ds)) == Err(IllegalNumberOfArgs)
  {
    KeywordDispatch("case", ds);
  }

  /** A `case` with at least two operands succeeds exactly when its key, the
      branches of all clauses after the key and the final clause read as an
      else clause all expand, and then carries those three parts; otherwise
      the first of them to fail, in that order, gives the error. */
  lemma CaseShape(ds: seq<Datum>)
    ensures ExpandedExpr(Form("case", ds)).Ok? ==>
      |ds| >= 2 && ExpandedExpr(ds[0]).Ok? && ExpandedCaseBranches(ds[1..]).Ok? && ExpandedCaseElse(ds[|ds| - 1]).Ok? &&
      ExpandedExpr(Form("case", ds)).value ==
        Case(ExpandedExpr(ds[0]).value, ExpandedCaseBranches(ds[1..]).value, ExpandedCaseElse(ds[|ds| - 1]).value)
    ensures |ds| >= 2 && ExpandedExpr(ds[0]).Ok? && ExpandedCaseBranches(ds[1..]).Ok? && ExpandedCaseElse(ds[|ds| - 1]).Ok? ==>
      ExpandedExpr(Form("case", ds)).Ok?
    ensures |ds| >= 2 && ExpandedExpr(ds[0]).Err? ==>
      ExpandedExpr(Form("case", ds)) == Err(ExpandedExpr(ds[0]).error)
    ensures |ds| >= 2 && ExpandedExpr(ds[0]).Ok? && ExpandedCaseBranches(ds[1..]).Err? ==>
      ExpandedExpr(Form("case", ds)) == Err(ExpandedCaseBranches(ds[1..]).error)
    ensures |ds| >= 2 && ExpandedExpr(ds[0]).Ok? && ExpandedCaseBranches(ds[1..]).Ok? && ExpandedCaseElse(ds[|ds| - 1]).Err? ==>
      ExpandedExpr(Form("case", ds)) == Err(ExpandedCaseElse(ds[|ds| - 1]).error)
  {
    KeywordDispatch("case", ds);
  }

  /** `when` and `unless` take a test and a possibly empty body. */
  lemma WhenUnlessShape(ds: seq<Datum>)
    ensures ExpandedExpr(Form("when", [])) == Err(IllegalNumberOfArgs)
    ensures ExpandedExpr(Form("unless", [])) == Err(IllegalNumberOfArgs)
    ensures ds != [] && ExpandedExpr(ds[0]).Ok? && ExpandedSeq(ds[1..]).Ok? ==>
      ExpandedExpr(Form("when", ds)) == Ok(When(ExpandedExpr(ds[0]).value, ExpandedSeq(ds[1..]).value)) &&
      ExpandedExpr(Form("unless", ds)) == Ok(Unless(ExpandedExpr(ds[0]).value, ExpandedSeq(ds[1..]).value))
    ensures ds != [] && ExpandedExpr(ds[0]).Err? ==>
      ExpandedExpr(Form("when", ds)) == Err(ExpandedExpr(ds[0]).error) &&
      ExpandedExpr(Form("unless", ds)) == Err(ExpandedExpr(ds[0]).error)
    ensures ds != [] && ExpandedExpr(ds[0]).Ok? && ExpandedSeq(ds[1..]).Err? ==>
      ExpandedExpr(Form("when", ds)) == Err(ExpandedSeq(ds[1..]).error) &&
      ExpandedExpr(Form("unless", ds)) == Err(ExpandedSeq(ds[1..]).error)
  {
    KeywordDispatch("when", []);
    KeywordDispatch("unless", []);
    KeywordDispatch("when", ds);
    KeywordDispatch("unless", ds);
  }

  /** `and`, `or` and `begin` take any number of operands, expanded in
      order. */
  lemma AndOrBeginShape(ds: seq<Datum>)
    ensures ExpandedSeq(ds).Ok? ==>
      ExpandedExpr(Form("and", ds)) == Ok(And(ExpandedSeq(ds).value)) &&
      ExpandedExpr(Form("or", ds)) == Ok(Or(ExpandedSeq(ds).value)) &&
      ExpandedExpr(Form("begin", ds)) == Ok(Begin(ExpandedSeq(ds).value))
    ensures ExpandedSeq(ds).Err? ==>
      ExpandedExpr(Form("and", ds)) == Err(ExpandedSeq(ds).error) &&
      ExpandedExpr(Form("or", ds)) == Err(ExpandedSeq(ds).error) &&
      ExpandedExpr(Form("begin", ds)) == Err(ExpandedSeq(ds).error)
  {
    KeywordDispatch("and", ds);
    KeywordDispatch("or", ds);
    KeywordDispatch("begin", ds);
  }

  /** A binding is a two-element list whose first element is a symbol. */
  lemma LetBindingShape(d: Datum)
    ensures ExpandedLetBinding(d).Ok? ==>
      d.List? && |d.elems| == 2 && d.elems[0].Symbol? &&
      ExpandedLetBinding(d).value == (d.elems[0].name, ExpandedExpr(d.elems[1]).value)
    ensures !d.List? || |d.elems| < 2 ==> ExpandedLetBinding(d) == Err(ListExpected)
    ensures d.List? && |d.elems| > 2 ==> ExpandedLetBinding(d) == Err(IllegalNumberOfArgs)
    ensures d.List? && |d.elems| == 2 && !d.elems[0].Symbol? ==> ExpandedLetBinding(d) == Err(ListExpected)
  {
    if d.List? && |d.elems| >= 2 {
      assert d.elems == [d.elems[0], d.elems[1]] + d.elems[2..];
    }
  }

  /** The bindings expand exactly when each of them does, in order. */
  lemma {:induction false} LetBindingsAllOk(ds: seq<Datum>)
    ensures ExpandedLetBindings(ds).Ok? <==> forall i :: 0 <= i < |ds| ==> ExpandedLetBinding(ds[i]).Ok?
    ensures ExpandedLetBindings(ds).Ok? ==>
      |ExpandedLetBindings(ds).value| == |ds| &&
      forall i :: 0 <= i < |ds| ==> ExpandedLetBindings(ds).value[i] == ExpandedLetBinding(ds[i]).value
  {
    if ds != [] {
      LetBindingsAllOk(ds[1..]);
      assert forall i :: 1 <= i < |ds| ==> ds[1..][i - 1] == ds[i];
    }
  }

  /** `let` reads every element but the last as one binding of its own, so
      the usual `(let ((x e)) body)` is `ListExpected`; a successful `let`
      has one binding per non-final element. */
  lemma LetUnwrapped(binding: Datum, body: Datum, ds: seq<Datum>)
    ensures ExpandedExpr(Form("let", [Datum.List([binding]), body])) == Err(ListExpected)
    ensures ExpandedLet(ds).Ok? ==>
      ds != [] && ExpandedLet(ds).value.Let? &&
      |ExpandedLet(ds).value.bindings| == |ds| - 1 &&
      ExpandedLet(ds).value.body == ExpandedExpr(ds[|ds| - 1]).value
  {
    KeywordDispatch("let", [Datum.List([binding]), body]);
    assert [Datum.List([binding]), body][..1] == [Datum.List([binding])];
    assert [Datum.List([binding])][1..] == [];
    LetBindingShape(Datum.List([binding]));
    assert ExpandedLetBindings([Datum.List([binding])]) == Err(ListExpected);
    if ds != [] {
      LetBindingsAllOk(ds[..|ds| - 1]);
    }
  }

  /** `letrec` expands exactly as `let` does, so it builds `Let`. */
  lemma LetRecIsLet(tail: seq<Datum>)
    ensures ExpandedExpr(Form("letrec", tail)) == ExpandedExpr(Form("let", tail))
    ensures ExpandedExpr(Form("letrec", tail)).Ok? ==> ExpandedExpr(Form("letrec", tail)).value.Let?
  {
    KeywordDispatch("letrec", tail);
    KeywordDispatch("let", tail);
  }

  // ---------------------------------------------------------------------
  // Top-level forms

  /** `define` takes exactly two elements: a symbol defines a value, a
      non-empty list of symbols a function named by its first symbol. */
  lemma DefineShape(ds: seq<Datum>)
    ensures |ds| != 2 ==> ExpandedDefine(ds) == Err(IllegalNumberOfArgs)
    ensures |ds| == 2 && ds[0].Symbol? ==>
      ExpandedDefine(ds) ==
        (if ExpandedExpr(ds[1]).Ok? then Ok(DefValue(ds[0].name, ExpandedExpr(ds[1]).value))
         else Err(ExpandedExpr(ds[1]).error))
    ensures |ds| == 2 && ds[0].List? && ds[0].elems != [] && AllSymbols(ds[0].elems) ==>
      ExpandedDefine(ds) ==
        (if ExpandedExpr(ds[1]).Ok? then Ok(DefFunc(ds[0].elems[0].name, SymbolNames(ds[0].elems[1..]), ExpandedExpr(ds[1]).value))
         else Err(ExpandedExpr(ds[1]).error))
    ensures |ds| == 2 && ds[0] == Datum.List([]) ==> ExpandedDefine(ds) == Err(ListExpected)
    ensures |ds| == 2 && ds[0].List? && !AllSymbols(ds[0].elems) ==> ExpandedDefine(ds) == Err(IdentifierExpected)
    ensures |ds| == 2 && !ds[0].List? && !ds[0].Symbol? ==> ExpandedDefine(ds) == Err(IdentifierExpected)
  {
    if |ds| >= 2 {
      assert ds == [ds[0], ds[1]] + ds[2..];
    }
    if |ds| == 2 && ds[0].List? && ds[0].elems != [] && AllSymbols(ds[0].elems) {
      var ls := ds[0].elems;
      assert SymbolNames(ls)[1..] == SymbolNames(ls[1..]);
    }
  }

  /** `define-record` takes a symbol and one list of symbols. */
  lemma DefineRecordShape(ds: seq<Datum>)
    ensures ExpandedDefineRecord(ds).Ok? <==>
      |ds| == 2 && ds[0].Symbol? && ds[1].List? && AllSymbols(ds[1].elems)
    ensures ExpandedDefineRecord(ds).Ok? ==>
      ExpandedDefineRecord(ds).value == DefRecord(ds[0].name, SymbolNames(ds[1].elems))
  {
  }

  /** `import` takes one or more strings, `export` one or more symbols;
      either failure is `StringExpected`. */
  lemma ImportExportShape(ds: seq<Datum>)
    ensures ExpandedImport(ds).Ok? <==> ds != [] && AllStrings(ds)
    ensures ExpandedImport(ds).Ok? ==> ExpandedImport(ds).value == Import.Import(StringPayloads(ds))
    ensures ExpandedImport(ds).Err? ==> ExpandedImport(ds).error == StringExpected
    ensures ExpandedExport(ds).Ok? <==> ds != [] && AllSymbols(ds)
    ensures ExpandedExport(ds).Ok? ==> ExpandedExport(ds).value == Export(SymbolNames(ds))
    ensures ExpandedExport(ds).Err? ==> ExpandedExport(ds).error == StringExpected
  {
  }

  /** A top-level `import` or `export` form. */
  predicate IsImportForm(d: Datum) {
    d.List? && d.elems != [] && (d.elems[0] == Datum.Symbol("import") || d.elems[0] == Datum.Symbol("export"))
  }

  /** A top-level `define` or `define-record` form. */
  predicate IsDefineForm(d: Datum) {
    d.List? && d.elems != [] && (d.elems[0] == Datum.Symbol("define") || d.elems[0] == Datum.Symbol("define-record"))
  }

  /** Imports and exports become import entries, definitions `Def`
      statements, and every other form is an expression statement holding
      its expression-position expansion. */
  lemma EntryKinds(d: Datum)
    ensures ExpandedEntry(d).Ok? ==> (ExpandedEntry(d).value.ImportEntry? <==> IsImportForm(d))
    ensures ExpandedEntry(d).Ok? && IsDefineForm(d) ==>
      ExpandedEntry(d).value.StmtEntry? && ExpandedEntry(d).value.stmt.Def?
    ensures !IsImportForm(d) && !IsDefineForm(d) ==>
      ExpandedEntry(d) ==
        (if ExpandedExpr(d).Ok? then Ok(StmtEntry(Stmt.Expr(ExpandedExpr(d).value)))
         else Err(ExpandedExpr(d).error))
  {
  }

  /** How many of the forms are imports or exports. */
  function ImportFormCount(vs: seq<Datum>): (n: nat)
    ensures n <= |vs|
  {
    if vs == [] then 0 else (if IsImportForm(vs[0]) then 1 else 0) + ImportFormCount(vs[1..])
  }

  /** The program succeeds exactly when every form does; the existing
      entries stay in front; imports grow by the number of import and
      export forms and statements by the rest. `FormsAppended` says what
      is appended. */
  lemma {:induction false} FormsInOrder(vs: seq<Datum>, p: Program)
    ensures ExpandedForms(vs, p).Ok? <==> forall i :: 0 <= i < |vs| ==> ExpandedEntry(vs[i]).Ok?
    ensures ExpandedForms(vs, p).Ok? ==>
      var r := ExpandedForms(vs, p).value;
      |r.imports| == |p.imports| + ImportFormCount(vs) &&
      |r.stmts| == |p.stmts| + |vs| - ImportFormCount(vs) &&
      r.imports[..|p.imports|] == p.imports && r.stmts[..|p.stmts|] == p.stmts
  {
    if vs != [] {
      assert forall i :: 1 <= i < |vs| ==> vs[1..][i - 1] == vs[i];
      EntryKinds(vs[0]);
      if ExpandedEntry(vs[0]).Ok? {
        var p' := Append(p, ExpandedEntry(vs[0]).value);
        FormsInOrder(vs[1..], p');
        if ExpandedForms(vs, p).Ok? {
          var r := ExpandedForms(vs, p).value;
          assert r == ExpandedForms(vs[1..], p').value;
          assert r.imports[..|p.imports|] == r.imports[..|p'.imports|][..|p.imports|];
          assert r.stmts[..|p.stmts|] == r.stmts[..|p'.stmts|][..|p.stmts|];
        }
      }
    }
  }

  /** The entries of forms that all expand, in the forms' order. */
  function EntriesOf(vs: seq<Datum>): (es: seq<Entry>)
    requires forall i :: 0 <= i < |vs| ==> ExpandedEntry(vs[i]).Ok?
    ensures |es| == |vs| && forall i :: 0 <= i < |vs| ==> es[i] == ExpandedEntry(vs[i]).value
  {
    if vs == [] then []
    else
      assert forall i :: 1 <= i < |vs| ==> vs[1..][i - 1] == vs[i];
      [ExpandedEntry(vs[0]).value] + EntriesOf(vs[1..])
  }

  /** The imports among some entries, in order. */
  function ImportsOf(es: seq<Entry>): (imps: seq<Import>)
    ensures |imps| <= |es|
    ensures (forall i :: 0 <= i < |es| ==> es[i].ImportEntry?) ==> |imps| == |es|
  {
    if es == [] then []
    else (if es[0].ImportEntry? then [es[0].imp] else []) + ImportsOf(es[1..])
  }

  /** The statements among some entries, in order. */
  function StmtsOf(es: seq<Entry>): (ss: seq<Stmt>)
    ensures |ss| <= |es|
    ensures (forall i :: 0 <= i < |es| ==> es[i].StmtEntry?) ==> |ss| == |es|
  {
    if es == [] then []
    else (if es[0].StmtEntry? then [es[0].stmt] else []) + StmtsOf(es[1..])
  }

  /** When every form expands, the program is the given one with the
      forms' imports appended to its imports and the forms' statements to
      its statements, each in the forms' order. */
  lemma {:induction false} FormsAppended(vs: seq<Datum>, p: Program)
    requires forall i :: 0 <= i < |vs| ==> ExpandedEntry(vs[i]).Ok?
    ensures ExpandedForms(vs, p) ==
      Ok(p.(imports := p.imports + ImportsOf(EntriesOf(vs)), stmts := p.stmts + StmtsOf(EntriesOf(vs))))
  {
    if vs == [] {
      assert p.imports + [] == p.imports && p.stmts + [] == p.stmts;
    } else {
      var e := ExpandedEntry(vs[0]).value;
      FormsStep(vs, p);
      FormsAppended(vs[1..], Append(p, e));
      EntriesCons(e, EntriesOf(vs[1..]));
      AppendThen(p, e, ImportsOf(EntriesOf(vs[1..])), StmtsOf(EntriesOf(vs[1..])));
    }
  }

  /** The first form expands: the loop goes on with its entry appended. */
  lemma FormsStep(vs: seq<Datum>, p: Program)
    requires vs != [] && forall i :: 0 <= i < |vs| ==> ExpandedEntry(vs[i]).Ok?
    ensures forall i :: 0 <= i < |vs[1..]| ==> ExpandedEntry(vs[1..][i]).Ok?
    ensures ExpandedForms(vs, p) == ExpandedForms(vs[1..], Append(p, ExpandedEntry(vs[0]).value))
    ensures EntriesOf(vs) == [ExpandedEntry(vs[0]).value] + EntriesOf(vs[1..])
  {
    assert forall i :: 1 <= i < |vs| ==> vs[1..][i - 1] == vs[i];
  }

  /** The imports and statements of one entry and then some more. */
  lemma EntriesCons(e: Entry, rest: seq<Entry>)
    ensures ImportsOf([e] + rest) == (if e.ImportEntry? then [e.imp] else []) + ImportsOf(rest)
    ensures StmtsOf([e] + rest) == (if e.StmtEntry? then [e.stmt] else []) + StmtsOf(rest)
  {
    assert ([e] + rest)[0] == e && ([e] + rest)[1..] == rest;
  }

  /** Appending one entry, then more imports and statements. */
  lemma AppendThen(p: Program, e: Entry, imps: seq<Import>, stmts: seq<Stmt>)
    ensures Append(p, e).(imports := Append(p, e).imports + imps, stmts := Append(p, e).stmts + stmts) ==
      p.(imports := p.imports + ((if e.ImportEntry? then [e.imp] else []) + imps),
         stmts := p.stmts + ((if e.StmtEntry? then [e.stmt] else []) + stmts))
  {
    match e
    case ImportEntry(i) =>
      assert p.imports + [i] + imps == p.imports + ([i] + imps);
      assert p.stmts + ([] + stmts) == p.stmts + stmts;
    case StmtEntry(t) =>
      assert p.stmts + [t] + stmts == p.stmts + ([t] + stmts);
      assert p.imports + ([] + imps) == p.imports + imps;
  }

  /** The first failing form decides the error, whatever comes after it. */
  lemma {:induction false} FormsFirstFailure(vs: seq<Datum>, p: Program, k: nat)
    requires k < |vs|
    requires forall i :: 0 <= i < k ==> ExpandedEntry(vs[i]).Ok?
    requires ExpandedEntry(vs[k]).Err?
    ensures ExpandedForms(vs, p) == Err(ExpandedEntry(vs[k]).error)
  {
    if k > 0 {
      assert forall i :: 0 <= i < k - 1 ==> vs[1..][i] == vs[i + 1];
      FormsFirstFailure(vs[1..], Append(p, ExpandedEntry(vs[0]).value), k - 1);
    }
  }

  /** A source that is not a list is one form; a list is its elements. */
  lemma ProgramSource(src: Datum)
    ensures !src.List? ==> ExpandedProgram(src) == ExpandedForms([src], Program.Init())
    ensures src.List? ==> ExpandedProgram(src) == ExpandedForms(src.elems, Program.Init())
  {
    assert [src][1..] == [];
  }
}
