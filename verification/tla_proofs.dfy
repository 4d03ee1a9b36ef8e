/** Parsing and writing undo each other. */
module TlaProofs {
  import opened Common
  import opened TlaLexer
  import opened TlaValues

  /** The tokens w stand at position i of t. */
  predicate At(t: seq<string>, i: nat, w: seq<string>) { i + |w| <= |t| && t[i..i + |w|] == w }

  lemma AtSplit(t: seq<string>, i: nat, a: seq<string>, b: seq<string>)
    requires At(t, i, a + b)
    ensures At(t, i, a) && At(t, i + |a|, b)
  {
    assert t[i..i + |a|] == (a + b)[..|a|];
    assert t[i + |a|..i + |a| + |b|] == (a + b)[|a|..];
  }

  lemma AtJoin(t: seq<string>, i: nat, a: seq<string>, b: seq<string>)
    requires At(t, i, a) && At(t, i + |a|, b)
    ensures At(t, i, a + b)
  {
    assert t[i..i + |a + b|] == t[i..i + |a|] + t[i + |a|..i + |a| + |b|];
  }

  lemma AtOne(t: seq<string>, i: nat, x: string)
    requires At(t, i, [x])
    ensures i < |t| && t[i] == x
  {
    assert t[i] == t[i..i + 1][0];
  }

  lemma OneAt(t: seq<string>, i: nat)
    requires i < |t|
    ensures At(t, i, [t[i]])
  {
  }

  // ---- how an expression begins ----

  predicate Opens(x: string) { x != "," && x != "]" && x != "}" && x != ">>" }

  lemma WriteOpens(e: Expr)
    requires Wf(e)
    ensures Write(e) != [] && Opens(Write(e)[0])
  {
    match e
    case StrE(s) => assert Write(e)[0][0] == '"';
    case IntE(n) => assert Write(e)[0] == n && (n[0] == '-' || IsDigit(n[0]));
    case _ =>
  }

  // ---- parsing what was written ----

  lemma ParseLeaf(t: seq<string>, i: nat, e: Expr)
    requires Wf(e) && (e.StrE? || e.IntE? || e.BoolE?) && At(t, i, Write(e))
    ensures ParseValue(t, i) == Some(Parsed(Denote(e), i + 1)) && |Write(e)| == 1
  {
    hide At;
    var x := Write(e)[0];
    AtOne(t, i, x);
    match e
    case StrE(s) =>
      assert x[0] == '"' && Inner(x) == s;
    case IntE(n) =>
      assert x == n && (n[0] == '-' || IsDigit(n[0]));
    case BoolE(_) =>
  }

  lemma {:induction false} ParseWritten(t: seq<string>, i: nat, e: Expr)
    requires Wf(e) && At(t, i, Write(e))
    ensures ParseValue(t, i) == Some(Parsed(Denote(e), i + |Write(e)|))
    decreases e, 0
  {
    hide At, WriteItems, WriteFields, DenoteAll, DenoteFields, ParseItems, ParseFields, WfAll, WfFields, IsName, IsInt;
    match e
    case RecE(fs) =>
      AtSplit(t, i, ["["], WriteFields(fs));
      AtOne(t, i, "[");
      ParseFieldsWritten(t, i + 1, fs, map[]);
    case SetE(es) =>
      AtSplit(t, i, ["{"], WriteItems(es, "}"));
      AtOne(t, i, "{");
      ParseItemsWritten(t, i + 1, es, "}");
    case TupleE(es) =>
      AtSplit(t, i, ["<<"], WriteItems(es, ">>"));
      AtOne(t, i, "<<");
      ParseItemsWritten(t, i + 1, es, ">>");
    case _ => ParseLeaf(t, i, e);
  }

  lemma {:induction false} ParseItemsWritten(t: seq<string>, i: nat, es: seq<Expr>, close: string)
    requires WfAll(es) && (close == "}" || close == ">>") && At(t, i, WriteItems(es, close))
    ensures ParseItems(t, i, close) == Some(Parsed(DenoteAll(es), i + |WriteItems(es, close)|))
    decreases es, 1
  {
    hide ParseMore, ParseValue, Write, Denote, Wf;
    if es == [] {
      AtOne(t, i, close);
    } else {
      ParseMoreWritten(t, i, es, close);
      WriteOpens(es[0]);
      ItemsBegin(es, close);
      assert t[i] == t[i..i + |WriteItems(es, close)|][0];
    }
  }

  lemma ItemsBegin(es: seq<Expr>, close: string)
    requires es != [] && Write(es[0]) != []
    ensures WriteItems(es, close) != [] && WriteItems(es, close)[0] == Write(es[0])[0]
  {
    hide Write;
  }

  lemma MoreLast(t: seq<string>, i: nat, close: string, v: Value, j: nat)
    requires ParseValue(t, i) == Some(Parsed(v, j)) && j < |t| && t[j] == close && close != ","
    ensures ParseMore(t, i, close) == Some(Parsed([v], j + 1))
  {
  }

  lemma MoreComma(t: seq<string>, i: nat, close: string, v: Value, j: nat, vs: seq<Value>, n: nat)
    requires ParseValue(t, i) == Some(Parsed(v, j)) && j < |t| && t[j] == ","
    requires ParseMore(t, j + 1, close) == Some(Parsed(vs, n))
    ensures ParseMore(t, i, close) == Some(Parsed([v] + vs, n))
  {
  }

  lemma {:induction false} ParseMoreWritten(t: seq<string>, i: nat, es: seq<Expr>, close: string)
    requires es != [] && WfAll(es) && (close == "}" || close == ">>") && At(t, i, WriteItems(es, close))
    ensures ParseMore(t, i, close) == Some(Parsed(DenoteAll(es), i + |WriteItems(es, close)|))
    decreases es, 0
  {
    hide At, ParseMore, ParseValue, Write, Denote, Wf;
    var w := Write(es[0]);
    var j := i + |w|;
    if |es| == 1 {
      AtSplit(t, i, w, [close]);
      ParseWritten(t, i, es[0]);
      AtOne(t, j, close);
      MoreLast(t, i, close, Denote(es[0]), j);
      assert es[1..] == [] && DenoteAll(es) == [Denote(es[0])] + DenoteAll(es[1..]) == [Denote(es[0])];
    } else {
      var rest := WriteItems(es[1..], close);
      assert WriteItems(es, close) == w + ([","] + rest);
      AtSplit(t, i, w, [","] + rest);
      ParseWritten(t, i, es[0]);
      AtSplit(t, j, [","], rest);
      AtOne(t, j, ",");
      ParseMoreWritten(t, j + 1, es[1..], close);
      MoreComma(t, i, close, Denote(es[0]), j, DenoteAll(es[1..]), j + 1 + |rest|);
    }
  }

  predicate Fresh(fs: seq<Field>, seen: map<string, Value>) {
    Distinct(fs) && forall k {:trigger fs[k]} :: 0 <= k < |fs| ==> fs[k].name !in seen
  }

  lemma FreshTail(fs: seq<Field>, seen: map<string, Value>, v: Value)
    requires fs != [] && Fresh(fs, seen)
    ensures Fresh(fs[1..], seen[fs[0].name := v])
  {
    var rest := fs[1..];
    forall i, j | 0 <= i < j < |rest| ensures rest[i].name != rest[j].name { assert rest[i] == fs[i + 1] && rest[j] == fs[j + 1]; }
    forall k | 0 <= k < |rest| ensures rest[k].name !in seen[fs[0].name := v] { assert rest[k] == fs[k + 1]; }
  }

  lemma FieldLast(t: seq<string>, i: nat, seen: map<string, Value>, v: Value, j: nat)
    requires i + 1 < |t| && IsName(t[i]) && t[i + 1] == "|->" && t[i] !in seen
    requires ParseValue(t, i + 2) == Some(Parsed(v, j)) && j < |t| && t[j] == "]"
    ensures ParseFields(t, i, seen) == Some(Parsed(seen[t[i] := v], j + 1))
  {
  }

  lemma FieldComma(t: seq<string>, i: nat, seen: map<string, Value>, v: Value, j: nat)
    requires i + 1 < |t| && IsName(t[i]) && t[i + 1] == "|->" && t[i] !in seen
    requires ParseValue(t, i + 2) == Some(Parsed(v, j)) && j < |t| && t[j] == ","
    ensures ParseFields(t, i, seen) == ParseFields(t, j + 1, seen[t[i] := v])
  {
  }

  /** The tokens of the first field and what follows it. */
  function FieldEnd(fs: seq<Field>): seq<string>
    requires fs != []
  {
    if |fs| == 1 then ["]"] else [","] + WriteFields(fs[1..])
  }

  lemma FieldsBegin(fs: seq<Field>)
    requires fs != []
    ensures WriteFields(fs) == [fs[0].name] + (["|->"] + (Write(fs[0].value) + FieldEnd(fs)))
  {
    hide Write;
    var w := Write(fs[0].value);
    var name, arrow := fs[0].name, "|->";
    assert [name, arrow] == [name] + [arrow];
    if |fs| == 1 {
      Regrouped(name, arrow, w, ["]"]);
    } else {
      assert [name, arrow] + w + [","] + WriteFields(fs[1..]) == [name, arrow] + w + ([","] + WriteFields(fs[1..]));
      Regrouped(name, arrow, w, [","] + WriteFields(fs[1..]));
    }
  }

  lemma Regrouped(name: string, arrow: string, w: seq<string>, end: seq<string>)
    ensures [name, arrow] + w + end == [name] + ([arrow] + (w + end))
  {
  }

  lemma AtField(t: seq<string>, i: nat, fs: seq<Field>)
    requires fs != [] && At(t, i, WriteFields(fs))
    ensures var w := Write(fs[0].value); var j := i + 2 + |w|;
            i + 1 < |t| && t[i] == fs[0].name && t[i + 1] == "|->" && At(t, i + 2, w) && At(t, j, FieldEnd(fs))
            && i + |WriteFields(fs)| == j + |FieldEnd(fs)|
  {
    hide At, Write, WriteFields;
    var name, w, end := fs[0].name, Write(fs[0].value), FieldEnd(fs);
    FieldsBegin(fs);
    AtSplit(t, i, [name], ["|->"] + (w + end));
    AtOne(t, i, name);
    AtSplit(t, i + 1, ["|->"], w + end);
    AtOne(t, i + 1, "|->");
    AtSplit(t, i + 2, w, end);
  }

  lemma {:induction false} ParseFieldsWritten(t: seq<string>, i: nat, fs: seq<Field>, seen: map<string, Value>)
    requires fs != [] && WfFields(fs) && Fresh(fs, seen) && At(t, i, WriteFields(fs))
    ensures ParseFields(t, i, seen) == Some(Parsed(DenoteFields(fs, seen), i + |WriteFields(fs)|))
    decreases fs, 0
  {
    hide At, Write, WriteFields, ParseFields, ParseValue, IsToken, IsName, GoodName, Denote, DenoteFields, Wf, WfFields, Fresh, FieldEnd;
    AtField(t, i, fs);
    FirstField(fs, seen);
    var v := Denote(fs[0].value);
    var j := i + 2 + |Write(fs[0].value)|;
    ParseWritten(t, i + 2, fs[0].value);
    if |fs| == 1 {
      EndsHere(t, j, fs);
      FieldLast(t, i, seen, v, j);
      NoFields(fs[1..], seen[fs[0].name := v]);
    } else {
      GoesOn(t, j, fs);
      FreshTail(fs, seen, v);
      ParseFieldsWritten(t, j + 1, fs[1..], seen[fs[0].name := v]);
      FieldComma(t, i, seen, v, j);
    }
  }

  lemma EndsHere(t: seq<string>, j: nat, fs: seq<Field>)
    requires |fs| == 1 && At(t, j, FieldEnd(fs))
    ensures j < |t| && t[j] == "]" && |FieldEnd(fs)| == 1
  {
    AtOne(t, j, "]");
  }

  lemma GoesOn(t: seq<string>, j: nat, fs: seq<Field>)
    requires |fs| > 1 && At(t, j, FieldEnd(fs))
    ensures j < |t| && t[j] == "," && At(t, j + 1, WriteFields(fs[1..])) && |FieldEnd(fs)| == 1 + |WriteFields(fs[1..])|
  {
    hide WriteFields;
    AtSplit(t, j, [","], WriteFields(fs[1..]));
    AtOne(t, j, ",");
  }

  /** The first field and the rest. */
  lemma FirstField(fs: seq<Field>, seen: map<string, Value>)
    requires fs != [] && WfFields(fs) && Fresh(fs, seen)
    ensures IsName(fs[0].name) && Wf(fs[0].value) && WfFields(fs[1..]) && fs[0].name !in seen
    ensures DenoteFields(fs, seen) == DenoteFields(fs[1..], seen[fs[0].name := Denote(fs[0].value)])
  {
  }

  lemma NoFields(fs: seq<Field>, seen: map<string, Value>)
    requires fs == [] && WfFields(fs)
    ensures DenoteFields(fs, seen) == seen
  {
  }

  // ---- what was parsed was written ----

  lemma QuotedToken(x: string)
    requires IsToken(x) && x[0] == '"'
    ensures |x| >= 2 && x == "\"" + Inner(x) + "\""
    ensures forall i {:trigger Inner(x)[i]} :: 0 <= i < |Inner(x)| ==> Inner(x)[i] != '"'
  {
    assert !Starts(x, "<<") && !Starts(x, ">>") && !Starts(x, "|->");
    var n := Lead(x[1..], NotQuote);
    assert x[n + 1] == x[1..][n];
    assert forall i :: 0 <= i < |Inner(x)| ==> Inner(x)[i] == x[1..][i];
  }

  lemma TokenNotEmpty(x: string)
    requires IsToken(x)
    ensures x != []
  {
  }

  lemma {:induction false} Reads(t: seq<string>, i: nat) returns (e: Expr)
    requires AllTokens(t) && ParseValue(t, i).Some?
    ensures var p := ParseValue(t, i).value;
            Wf(e) && Denote(e) == p.value && At(t, i, Write(e)) && i + |Write(e)| == p.next
    decreases |t| - i, 1
  {
    hide At, ParseItems, ParseFields, WriteItems, WriteFields, DenoteAll, DenoteFields, WfAll, WfFields, IsToken;
    OneAt(t, i);
    assert IsToken(t[i]);
    TokenNotEmpty(t[i]);
    if t[i] == "[" {
      var fs := ReadsFields(t, i + 1, map[]);
      e := RecE(fs);
      AtJoin(t, i, ["["], WriteFields(fs));
    } else if t[i] == "{" {
      var es := ReadsItems(t, i + 1, "}");
      e := SetE(es);
      AtJoin(t, i, ["{"], WriteItems(es, "}"));
    } else if t[i] == "<<" {
      var es := ReadsItems(t, i + 1, ">>");
      e := TupleE(es);
      AtJoin(t, i, ["<<"], WriteItems(es, ">>"));
    } else if t[i][0] == '"' {
      QuotedToken(t[i]);
      e := StrE(Inner(t[i]));
    } else if t[i] == "TRUE" || t[i] == "FALSE" {
      e := BoolE(t[i] == "TRUE");
    } else {
      e := IntE(t[i]);
    }
  }

  lemma {:induction false} ReadsItems(t: seq<string>, i: nat, close: string) returns (es: seq<Expr>)
    requires AllTokens(t) && ParseItems(t, i, close).Some?
    ensures var p := ParseItems(t, i, close).value;
            WfAll(es) && DenoteAll(es) == p.value && At(t, i, WriteItems(es, close)) && i + |WriteItems(es, close)| == p.next
    decreases |t| - i, 3
  {
    if t[i] == close {
      es := [];
      OneAt(t, i);
    } else {
      es := ReadsMore(t, i, close);
    }
  }

  lemma {:induction false} ReadsMore(t: seq<string>, i: nat, close: string) returns (es: seq<Expr>)
    requires AllTokens(t) && ParseMore(t, i, close).Some?
    ensures var p := ParseMore(t, i, close).value;
            es != [] && WfAll(es) && DenoteAll(es) == p.value && At(t, i, WriteItems(es, close)) && i + |WriteItems(es, close)| == p.next
    decreases |t| - i, 2
  {
    hide At, ParseValue, Write, Denote, Wf, AllTokens;
    var e := Reads(t, i);
    var j := ParseValue(t, i).value.next;
    OneAt(t, j);
    if t[j] == "," {
      var more := ReadsMore(t, j + 1, close);
      es := [e] + more;
      assert es[1..] == more;
      AtJoin(t, j, [","], WriteItems(more, close));
      AtJoin(t, i, Write(e), [","] + WriteItems(more, close));
      assert WriteItems(es, close) == Write(e) + ([","] + WriteItems(more, close));
    } else {
      es := [e];
      assert es[1..] == [];
      AtJoin(t, i, Write(e), [close]);
    }
  }

  /** What the parser found at the front of a list of fields. */
  lemma FieldParts(t: seq<string>, i: nat, seen: map<string, Value>)
    requires ParseFields(t, i, seen).Some?
    ensures i + 1 < |t| && IsName(t[i]) && t[i + 1] == "|->" && t[i] !in seen && ParseValue(t, i + 2).Some?
    ensures var v := ParseValue(t, i + 2).value;
            i + 2 < v.next < |t| && (t[v.next] == "," || t[v.next] == "]")
            && ParseFields(t, i, seen) == (if t[v.next] == "," then ParseFields(t, v.next + 1, seen[t[i] := v.value])
                                           else Some(Parsed(seen[t[i] := v.value], v.next + 1)))
  {
  }

  lemma FieldAt(t: seq<string>, i: nat, fs: seq<Field>)
    requires fs != [] && i + 1 < |t| && t[i] == fs[0].name && t[i + 1] == "|->"
    requires var w := Write(fs[0].value); At(t, i + 2, w) && At(t, i + 2 + |w|, FieldEnd(fs))
    ensures At(t, i, WriteFields(fs)) && i + |WriteFields(fs)| == i + 2 + |Write(fs[0].value)| + |FieldEnd(fs)|
  {
    hide At, Write, WriteFields;
    var w, end := Write(fs[0].value), FieldEnd(fs);
    AtJoin(t, i + 2, w, end);
    OneAt(t, i + 1);
    AtJoin(t, i + 1, ["|->"], w + end);
    OneAt(t, i);
    AtJoin(t, i, [t[i]], ["|->"] + (w + end));
    FieldsBegin(fs);
  }

  lemma {:induction false} ReadsFields(t: seq<string>, i: nat, seen: map<string, Value>) returns (fs: seq<Field>)
    requires AllTokens(t) && ParseFields(t, i, seen).Some?
    ensures var p := ParseFields(t, i, seen).value;
            fs != [] && WfFields(fs) && Fresh(fs, seen) && DenoteFields(fs, seen) == p.value
            && At(t, i, WriteFields(fs)) && i + |WriteFields(fs)| == p.next
    decreases |t| - i, 2
  {
    hide At, ParseValue, ParseFields, Write, WriteFields, Denote, Wf, Fresh, IsToken, IsName;
    FieldParts(t, i, seen);
    var e := Reads(t, i + 2);
    var j := ParseValue(t, i + 2).value.next;
    var f := Field(t[i], e);
    var seen' := seen[t[i] := Denote(e)];
    OneAt(t, j);
    if t[j] == "," {
      var rest := ReadsFields(t, j + 1, seen');
      fs := [f] + rest;
      assert fs[1..] == rest;
      FreshMore(f, rest, seen, Denote(e));
      AtJoin(t, j, [","], WriteFields(rest));
    } else {
      fs := [f];
      assert fs[1..] == [] && fs == [f] + [];
      FreshNone(seen');
      FreshMore(f, [], seen, Denote(e));
    }
    FieldAt(t, i, fs);
  }

  lemma FreshNone(seen: map<string, Value>)
    ensures Fresh([], seen)
  {
  }

  lemma FreshMore(f: Field, rest: seq<Field>, seen: map<string, Value>, v: Value)
    requires f.name !in seen && Fresh(rest, seen[f.name := v])
    ensures Fresh([f] + rest, seen)
  {
    var fs := [f] + rest;
    forall k | 0 <= k < |fs| ensures fs[k].name !in seen { if k > 0 { assert fs[k] == rest[k - 1]; } }
    forall i, j | 0 <= i < j < |fs| ensures fs[i].name != fs[j].name {
      assert fs[j] == rest[j - 1];
      if i > 0 { assert fs[i] == rest[i - 1]; }
    }
  }
}
