/** The reader's output: untyped, structure-preserving data
    (sgeme/src/datum.rs). */
module Datums {
  import opened Base

  /** Which reader abbreviation produced a quoted datum:
      `'`, `` ` ``, `,` or `,@`. */
  datatype AbbrevPrefix = Quote | Quasi | Comma | CommaAt

  datatype Datum =
    | Quote(prefix: AbbrevPrefix, quoted: Datum)
    | Bool(b: bool)
    | ByteVector(bytes: seq<uint8>)
    | Char(c: char)
    | DottedList(init: seq<Datum>, tail: Datum)
    | Fixnum(n: int32)
    | Label(id: uint32)
    | List(elems: seq<Datum>)
    | Set(id: uint32, value: Datum)
    | Str(s: string)
    | Symbol(name: string)
    | Vector(elems: seq<Datum>)
    | Ellipses
    | Null
    | Undefined
    | Eof
  {
    /** `is_list`: true exactly for proper lists; dotted lists and vectors
        are not lists. */
    function IsList(): (b: bool)
      ensures b <==> exists xs :: this == List(xs)
    {
      match this
      case List(_) => true
      case _ => false
    }

    /** `is_string`: true exactly for string data. */
    function IsString(): (b: bool)
      ensures b <==> exists s :: this == Str(s)
    {
      match this
      case Str(_) => true
      case _ => false
    }

    /** `get_string`: the payload of a string datum (the source reaches
        `unreachable!` on anything else). */
    function GetString(): (r: string)
      requires IsString()
      ensures this == Str(r)
    {
      match this
      case Str(s) => s
    }

    /** `is_symbol`: true exactly for symbols. */
    function IsSymbol(): (b: bool)
      ensures b <==> exists n :: this == Symbol(n)
    {
      match this
      case Symbol(_) => true
      case _ => false
    }

    /** `get_symbol_name`: the name of a symbol (the source reaches
        `unreachable!` on anything else). */
    function GetSymbolName(): (r: string)
      requires IsSymbol()
      ensures this == Symbol(r)
    {
      match this
      case Symbol(n) => n
    }
  }

  /** Every element of `ds` is a symbol (`ds.iter().all(|x| x.is_symbol())`). */
  predicate AllSymbols(ds: seq<Datum>) {
    forall i :: 0 <= i < |ds| ==> ds[i].IsSymbol()
  }

  /** Every element of `ds` is a string. */
  predicate AllStrings(ds: seq<Datum>) {
    forall i :: 0 <= i < |ds| ==> ds[i].IsString()
  }

  /** `ds.iter().map(|x| x.get_symbol_name()).collect()`. */
  function SymbolNames(ds: seq<Datum>): (names: seq<string>)
    requires AllSymbols(ds)
    ensures |names| == |ds|
    ensures forall i :: 0 <= i < |ds| ==> ds[i] == Symbol(names[i])
  {
    if ds == [] then [] else [ds[0].GetSymbolName()] + SymbolNames(ds[1..])
  }

  /** `ds.iter().map(|x| x.get_string()).collect()`. */
  function StringPayloads(ds: seq<Datum>): (strs: seq<string>)
    requires AllStrings(ds)
    ensures |strs| == |ds|
    ensures forall i :: 0 <= i < |ds| ==> ds[i] == Str(strs[i])
  {
    if ds == [] then [] else [ds[0].GetString()] + StringPayloads(ds[1..])
  }
}
