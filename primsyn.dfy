/** The expander's output: the core syntax shared with everything downstream
    (sgeme/src/primsyn.rs). */
module PrimSyn {
  import opened Base
  import opened Datums

  /** An `(import ...)` or `(export ...)` entry, in source order. */
  datatype Import =
    | Export(names: seq<string>)
    | Import(names: seq<string>)

  datatype Stmt =
    | Def(def: Def)
    | Expr(expr: Expr)

  datatype Def =
    | DefValue(name: string, value: Expr)
    | DefFunc(name: string, params: seq<string>, body: Expr)
    | DefRecord(name: string, members: seq<string>)

  /** The core expression language. `If`, `Cond` and `Case` carry mandatory
      else parts; `Lambda`, `Let` and `LetRec` carry a single body; `Quote`,
      `Unquote` and `Vector` hold raw, unexpanded data. */
  datatype Expr =
    | Symbol(name: string)
    | Bool(b: bool)
    | Fixnum(n: int32)
    | Vector(data: seq<Datum>)
    | Char(c: char)
    | Str(s: string)
    | Quote(quoted: Datum)
    | Unquote(unquoted: Datum)
    | ProcCall(rator: Expr, rands: seq<Expr>)
    | Lambda(params: seq<string>, body: Expr)
    | If(test: Expr, consequent: Expr, alternative: Expr)
    | Cond(branches: seq<(Expr, Expr)>, elseExpr: Expr)
    | Case(key: Expr, clauses: seq<(seq<Datum>, Sequence)>, elseSeq: Sequence)
    | And(operands: seq<Expr>)
    | Or(operands: seq<Expr>)
    | When(test: Expr, actions: Sequence)
    | Unless(test: Expr, actions: Sequence)
    | Let(bindings: seq<BindingSpec>, body: Expr)
    | LetRec(bindings: seq<BindingSpec>, body: Expr)
    | Begin(exprs: Sequence)

  type BindingSpec = (string, Expr)

  type Sequence = seq<Expr>

  /** A program: imports/exports and statements, each in source order. */
  datatype Program = Program(imports: seq<Import>, stmts: seq<Stmt>) {
    /** `Program::init`: no imports and no statements. */
    static function Init(): (p: Program)
      ensures p.imports == [] && p.stmts == []
    {
      Program([], [])
    }
  }
}
