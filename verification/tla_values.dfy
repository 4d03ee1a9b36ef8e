/**
 The recursive-descent parser of formal/tla_values.py: it accepts exactly the
 spaced spellings of well-formed value expressions and returns what they
 denote.
 */
module TlaValues {
  import opened Common
  import opened TlaLexer

  /** What parsing yields: a Record, a frozenset, a tuple, a str, an int or a bool. */
  datatype Value =
    | Rec(fields: map<string, Value>)
    | Set(members: set<Value>)
    | Tuple(items: seq<Value>)
    | Str(text: string)
    | Int(number: int)
    | Bool(truth: bool)

  // ---- leaves ----

  predicate IsName(t: string) { t != [] && IsLetter(t[0]) && forall i {:trigger t[i]} :: 0 <= i < |t| ==> IsWord(t[i]) }

  predicate AllDigits(s: string) { s != [] && forall i {:trigger s[i]} :: 0 <= i < |s| ==> IsDigit(s[i]) }

  predicate IsInt(t: string) { AllDigits(t) || (t != [] && t[0] == '-' && AllDigits(t[1..])) }

  function DigitOf(c: char): nat
    requires IsDigit(c)
  {
    c as int - '0' as int
  }

  function Digits(s: string): nat
    requires forall i {:trigger s[i]} :: 0 <= i < |s| ==> IsDigit(s[i])
  {
    if s == [] then 0 else Digits(s[..|s| - 1]) * 10 + DigitOf(s[|s| - 1])
  }

  /** int(t). */
  function IntOf(t: string): int
    requires IsInt(t)
  {
    if t[0] == '-' then 0 - Digits(t[1..]) as int else Digits(t)
  }

  // ---- the parser ----

  datatype Parsed<T> = Parsed(value: T, next: nat)

  /** parse_value; every ValueError and IndexError is None. */
  function ParseValue(t: seq<string>, i: nat): (r: Option<Parsed<Value>>)
    ensures r.Some? ==> i < r.value.next <= |t|
    decreases |t| - i, 1
  {
    if i >= |t| then None
    else if t[i] == "[" then
      var f := ParseFields(t, i + 1, map[]);
      if f.None? then None else Some(Parsed(Rec(f.value.value), f.value.next))
    else if t[i] == "{" then
      var s := ParseItems(t, i + 1, "}");
      if s.None? then None else Some(Parsed(Set(Members(s.value.value)), s.value.next))
    else if t[i] == "<<" then
      var s := ParseItems(t, i + 1, ">>");
      if s.None? then None else Some(Parsed(Tuple(s.value.value), s.value.next))
    else if t[i] != [] && t[i][0] == '"' then Some(Parsed(Str(Inner(t[i])), i + 1))
    else if t[i] == "TRUE" then Some(Parsed(Bool(true), i + 1))
    else if t[i] == "FALSE" then Some(Parsed(Bool(false), i + 1))
    else if IsInt(t[i]) then Some(Parsed(Int(IntOf(t[i])), i + 1))
    else None
  }

  /** t[1:-1]. */
  function Inner(t: string): string { if |t| < 2 then [] else t[1..|t| - 1] }

  function Members(items: seq<Value>): set<Value> { set v | v in items }

  /** _items. */
  function ParseItems(t: seq<string>, i: nat, close: string): (r: Option<Parsed<seq<Value>>>)
    ensures r.Some? ==> i < r.value.next <= |t|
    decreases |t| - i, 3
  {
    if i >= |t| then None
    else if t[i] == close then Some(Parsed([], i + 1))
    else ParseMore(t, i, close)
  }

  /** One more item, then a comma and more, or the closing token. */
  function ParseMore(t: seq<string>, i: nat, close: string): (r: Option<Parsed<seq<Value>>>)
    ensures r.Some? ==> i < r.value.next <= |t|
    decreases |t| - i, 2
  {
    var v := ParseValue(t, i);
    if v.None? || v.value.next >= |t| then None
    else if t[v.value.next] == "," then
      var more := ParseMore(t, v.value.next + 1, close);
      if more.None? then None else Some(Parsed([v.value.value] + more.value.value, more.value.next))
    else if t[v.value.next] == close then Some(Parsed([v.value.value], v.value.next + 1))
    else None
  }

  /** The fields of a record, added to those already read. */
  function ParseFields(t: seq<string>, i: nat, seen: map<string, Value>): (r: Option<Parsed<map<string, Value>>>)
    ensures r.Some? ==> i < r.value.next <= |t|
    decreases |t| - i, 2
  {
    if i + 1 >= |t| || !IsName(t[i]) || t[i + 1] != "|->" || t[i] in seen then None
    else
      var v := ParseValue(t, i + 2);
      if v.None? || v.value.next >= |t| then None
      else if t[v.value.next] == "," then ParseFields(t, v.value.next + 1, seen[t[i] := v.value.value])
      else if t[v.value.next] == "]" then Some(Parsed(seen[t[i] := v.value.value], v.value.next + 1))
      else None
  }

  /** parse. */
  function Parse(text: string): Option<Value> {
    var toks := Tokenize(text);
    if toks.None? then None
    else
      var v := ParseValue(toks.value, 0);
      if v.None? || v.value.next != |toks.value| then None else Some(v.value.value)
  }

  // ---- expressions ----

  /** How a value is written. Set members may come in any order and repeat; an integer is any decimal
      numeral. */
  datatype Expr =
    | RecE(fields: seq<Field>)
    | SetE(members: seq<Expr>)
    | TupleE(items: seq<Expr>)
    | StrE(text: string)
    | IntE(numeral: string)
    | BoolE(truth: bool)

  datatype Field = Field(name: string, value: Expr)

  /** A name the tokenizer leaves in one piece: not one that goes on after TRUE or FALSE. */
  predicate GoodName(n: string) { IsName(n) && IsToken(n) }

  predicate Wf(e: Expr)
    decreases e, 0
  {
    match e
    case RecE(fs) => fs != [] && WfFields(fs) && Distinct(fs)
    case SetE(es) => WfAll(es)
    case TupleE(es) => WfAll(es)
    case StrE(s) => forall i {:trigger s[i]} :: 0 <= i < |s| ==> s[i] != '"'
    case IntE(n) => IsInt(n)
    case BoolE(_) => true
  }

  predicate WfAll(es: seq<Expr>)
    decreases es, 0
  {
    es == [] || (Wf(es[0]) && WfAll(es[1..]))
  }

  predicate WfFields(fs: seq<Field>)
    decreases fs, 0
  {
    fs == [] || (GoodName(fs[0].name) && Wf(fs[0].value) && WfFields(fs[1..]))
  }

  predicate Distinct(fs: seq<Field>) {
    forall i, j {:trigger fs[i], fs[j]} :: 0 <= i < j < |fs| ==> fs[i].name != fs[j].name
  }

  /** The tokens of an expression. */
  function Write(e: Expr): seq<string>
    decreases e, 0
  {
    match e
    case RecE(fs) => ["["] + WriteFields(fs)
    case SetE(es) => ["{"] + WriteItems(es, "}")
    case TupleE(es) => ["<<"] + WriteItems(es, ">>")
    case StrE(s) => ["\"" + s + "\""]
    case IntE(n) => [n]
    case BoolE(b) => [if b then "TRUE" else "FALSE"]
  }

  function WriteItems(es: seq<Expr>, close: string): seq<string>
    decreases es, 0
  {
    if es == [] then [close]
    else if |es| == 1 then Write(es[0]) + [close]
    else Write(es[0]) + [","] + WriteItems(es[1..], close)
  }

  function WriteFields(fs: seq<Field>): seq<string>
    decreases fs, 0
  {
    if fs == [] then ["]"]
    else if |fs| == 1 then [fs[0].name, "|->"] + Write(fs[0].value) + ["]"]
    else [fs[0].name, "|->"] + Write(fs[0].value) + [","] + WriteFields(fs[1..])
  }

  /** The value an expression denotes. */
  function Denote(e: Expr): Value
    requires Wf(e)
    decreases e, 0
  {
    match e
    case RecE(fs) => Rec(DenoteFields(fs, map[]))
    case SetE(es) => Set(Members(DenoteAll(es)))
    case TupleE(es) => Tuple(DenoteAll(es))
    case StrE(s) => Str(s)
    case IntE(n) => Int(IntOf(n))
    case BoolE(b) => Bool(b)
  }

  function DenoteAll(es: seq<Expr>): seq<Value>
    requires WfAll(es)
    decreases es, 0
  {
    if es == [] then [] else [Denote(es[0])] + DenoteAll(es[1..])
  }

  function DenoteFields(fs: seq<Field>, seen: map<string, Value>): map<string, Value>
    requires WfFields(fs)
    decreases fs, 0
  {
    if fs == [] then seen else DenoteFields(fs[1..], seen[fs[0].name := Denote(fs[0].value)])
  }
}
