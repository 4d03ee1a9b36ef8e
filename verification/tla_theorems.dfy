/** What the parser accepts, and that every value can be written and read back. */
module TlaTheorems {
  import opened Common
  import opened TlaLexer
  import opened TlaValues
  import opened TlaProofs

  // ---- written tokens are tokens, and none runs into the next ----

  lemma IntIsToken(n: string)
    requires IsInt(n)
    ensures IsToken(n)
  {
    NotPunctuation(n);
    KeywordFirst(n);
    if n[0] == '-' && !AllDigits(n) {
      LeadIs(n[1..], [], IsDigit);
      assert n[1..] + [] == n[1..];
    } else {
      LeadIs(n, [], IsDigit);
      assert n + [] == n;
    }
  }

  lemma KeywordFirst(n: string)
    requires n != [] && (IsDigit(n[0]) || n[0] == '-')
    ensures !Starts(n, "TRUE") && !Starts(n, "FALSE")
  {
    if |n| >= 4 { assert n[..4][0] == n[0]; }
    if |n| >= 5 { assert n[..5][0] == n[0]; }
  }

  lemma StrIsToken(s: string)
    requires forall i {:trigger s[i]} :: 0 <= i < |s| ==> s[i] != '"'
    ensures IsToken("\"" + s + "\"")
  {
    var x := "\"" + s + "\"";
    assert x[0] == '"' && x[1..] == s + "\"";
    assert x[..2][0] == x[0];
    if |x| >= 3 { assert x[..3][0] == x[0]; }
    LeadIs(s, "\"", NotQuote);
  }

  /** A clean list whose last token may be followed by anything that does not begin with a word
      character. */
  lemma CleanJoin(a: seq<string>, b: seq<string>)
    requires Clean(a) && Clean(b) && (a != [] && b != [] ==> Apart(a[|a| - 1], b[0]))
    ensures Clean(a + b)
  {
    hide IsToken, Apart;
    var c := a + b;
    forall i | 0 <= i < |c| ensures IsToken(c[i]) { if i < |a| { assert c[i] == a[i]; } else { assert c[i] == b[i - |a|]; } }
    forall i | 0 <= i && i + 1 < |c| ensures ApartAt(c, i) {
      if i + 1 < |a| {
        assert ApartAt(a, i) && c[i] == a[i] && c[i + 1] == a[i + 1];
      } else if i >= |a| {
        assert ApartAt(b, i - |a|) && c[i] == b[i - |a|] && c[i + 1] == b[i - |a| + 1];
      } else {
        assert c[i] == a[|a| - 1] && c[i + 1] == b[0];
      }
    }
  }

  /** Any clean list may follow punctuation. */
  lemma CleanAfter(x: string, b: seq<string>)
    requires IsToken(x) && !Wordy(x) && Clean(b)
    ensures Clean([x] + b)
  {
    CleanOne(x);
    CleanJoin([x], b);
  }

  lemma CleanOne(x: string)
    requires IsToken(x)
    ensures Clean([x])
  {
  }

  lemma Punctuation()
    ensures IsToken("[") && IsToken("]") && IsToken("{") && IsToken("}") && IsToken(",")
    ensures IsToken("<<") && IsToken(">>") && IsToken("|->") && IsToken("TRUE") && IsToken("FALSE")
  {
  }

  lemma {:induction false} WriteClean(e: Expr)
    requires Wf(e)
    ensures Clean(Write(e))
    decreases e, 0
  {
    hide IsToken, Clean, WfAll, WfFields;
    Punctuation();
    match e
    case RecE(fs) => FieldsClean(fs); CleanAfter("[", WriteFields(fs));
    case SetE(es) => ItemsClean(es, "}"); CleanAfter("{", WriteItems(es, "}"));
    case TupleE(es) => ItemsClean(es, ">>"); CleanAfter("<<", WriteItems(es, ">>"));
    case StrE(s) => StrIsToken(s); CleanOne("\"" + s + "\"");
    case IntE(n) => IntIsToken(n); CleanOne(n);
    case BoolE(b) => CleanOne(if b then "TRUE" else "FALSE");
  }

  lemma {:induction false} ItemsClean(es: seq<Expr>, close: string)
    requires WfAll(es) && (close == "}" || close == ">>")
    ensures Clean(WriteItems(es, close))
    decreases es, 0
  {
    hide IsToken, Clean, Wf, Write;
    Punctuation();
    CleanOne(close);
    if es != [] {
      WriteClean(es[0]);
      if |es| == 1 {
        CleanJoin(Write(es[0]), [close]);
      } else {
        ItemsClean(es[1..], close);
        CleanAfter(",", WriteItems(es[1..], close));
        CleanJoin(Write(es[0]), [","] + WriteItems(es[1..], close));
        assert WriteItems(es, close) == Write(es[0]) + ([","] + WriteItems(es[1..], close));
      }
    }
  }

  lemma {:induction false} FieldsClean(fs: seq<Field>)
    requires WfFields(fs)
    ensures Clean(WriteFields(fs))
    decreases fs, 0
  {
    hide IsToken, Clean, Wf, Write, IsName;
    Punctuation();
    CleanOne("]");
    if fs != [] {
      WriteClean(fs[0].value);
      if |fs| > 1 {
        FieldsClean(fs[1..]);
        CleanAfter(",", WriteFields(fs[1..]));
      }
      CleanJoin(Write(fs[0].value), FieldEnd(fs));
      CleanAfter("|->", Write(fs[0].value) + FieldEnd(fs));
      CleanOne(fs[0].name);
      CleanJoin([fs[0].name], ["|->"] + (Write(fs[0].value) + FieldEnd(fs)));
      FieldsBegin(fs);
    }
  }

  // ---- parse and print undo each other ----

  /** text is e written out, with any white space around its tokens. */
  ghost predicate Spells(text: string, e: Expr) {
    exists gaps {:trigger Gaps(gaps, |Write(e)|)} :: Gaps(gaps, |Write(e)|) && Spread(Write(e), gaps) == text
  }

  /** Whatever is written parses to what it denotes. */
  lemma ParseSpelled(text: string, e: Expr)
    requires Wf(e) && Spells(text, e)
    ensures Parse(text) == Some(Denote(e))
  {
    var w := Write(e);
    var gaps :| Gaps(gaps, |w|) && Spread(w, gaps) == text;
    WriteClean(e);
    WriteOpens(e);
    TokenizeSpread(w, gaps);
    assert w[0..|w|] == w;
    ParseWritten(w, 0, e);
  }

  /** Parsing succeeds only on the writing of a well-formed expression, every token consumed, and
      returns what that expression denotes. */
  lemma ParseOnlySpelled(text: string) returns (e: Expr)
    requires Parse(text).Some?
    ensures Wf(e) && Spells(text, e) && Parse(text) == Some(Denote(e))
  {
    var toks := Tokenize(text).value;
    var gaps := TokenizedIsSpread(text);
    e := Reads(toks, 0);
    assert toks[0..|toks|] == toks;
    assert Write(e) == toks;
    assert Gaps(gaps, |Write(e)|);
  }

  /** The accepted language, exactly. */
  lemma ParseExactly(text: string, v: Value)
    ensures Parse(text) == Some(v) <==> exists e {:trigger Spells(text, e)} :: Wf(e) && Spells(text, e) && Denote(e) == v
  {
    if Parse(text) == Some(v) { var e := ParseOnlySpelled(text); }
    if e :| Wf(e) && Spells(text, e) && Denote(e) == v { ParseSpelled(text, e); }
  }

  // ---- every value can be written ----

  /** Strings without quotes; nonempty records with names the tokenizer keeps whole. */
  predicate Printable(v: Value)
    decreases v
  {
    match v
    case Rec(m) => m != map[] && forall k :: k in m ==> GoodName(k) && Printable(m[k])
    case Set(s) => forall x :: x in s ==> Printable(x)
    case Tuple(q) => forall i :: 0 <= i < |q| ==> Printable(q[i])
    case Str(s) => forall i {:trigger s[i]} :: 0 <= i < |s| ==> s[i] != '"'
    case Int(_) => true
    case Bool(_) => true
  }

  ghost predicate Writable(v: Value) { exists e {:trigger Wf(e)} :: Wf(e) && Denote(e) == v }

  lemma {:induction false} DigitsOf(n: nat) returns (s: string)
    ensures AllDigits(s) && Digits(s) == n
    decreases n
  {
    var c := ('0' as int + n % 10) as char;
    if n < 10 {
      s := [c];
      assert s[..0] == [];
    } else {
      var front := DigitsOf(n / 10);
      s := front + [c];
      assert s[..|s| - 1] == front;
    }
  }

  lemma NumeralOf(n: int) returns (s: string)
    ensures IsInt(s) && IntOf(s) == n
  {
    if n >= 0 {
      s := DigitsOf(n);
    } else {
      var d := DigitsOf(-n);
      s := "-" + d;
      assert s[1..] == d;
    }
  }

  lemma {:induction false} WritableAll(q: seq<Value>) returns (es: seq<Expr>)
    requires forall i :: 0 <= i < |q| ==> Writable(q[i])
    ensures WfAll(es) && DenoteAll(es) == q
    decreases |q|
  {
    es := [];
    if q != [] {
      var rest := WritableAll(q[1..]);
      assert Writable(q[0]);
      var e :| Wf(e) && Denote(e) == q[0];
      es := [e] + rest;
      assert es[1..] == rest && q == [q[0]] + q[1..];
    }
  }

  lemma {:induction false} Listed(s: set<Value>) returns (q: seq<Value>)
    ensures Members(q) == s
    decreases |s|
  {
    q := [];
    if s != {} {
      var x :| x in s;
      var rest := Listed(s - {x});
      q := [x] + rest;
      assert Members(q) == {x} + Members(rest);
    }
  }

  lemma {:induction false} WritableFields(m: map<string, Value>) returns (fs: seq<Field>)
    requires forall k :: k in m ==> GoodName(k) && Writable(m[k])
    ensures WfFields(fs) && Distinct(fs) && (fs == [] <==> m == map[])
    ensures forall i {:trigger fs[i]} :: 0 <= i < |fs| ==> fs[i].name in m
    ensures forall seen: map<string, Value> {:trigger DenoteFields(fs, seen)} :: DenoteFields(fs, seen) == seen + m
    decreases |m|
  {
    fs := [];
    if m == map[] {
      assert forall seen: map<string, Value> :: seen + m == seen;
    } else {
      var k :| k in m;
      var less := m - {k};
      assert |less.Keys| < |m.Keys| by { assert less.Keys == m.Keys - {k}; }
      var rest := WritableFields(less);
      assert Writable(m[k]);
      var e :| Wf(e) && Denote(e) == m[k];
      fs := [Field(k, e)] + rest;
      FieldsPrepend(k, e, rest, m, less);
    }
  }

  lemma FieldsPrepend(k: string, e: Expr, rest: seq<Field>, m: map<string, Value>, less: map<string, Value>)
    requires k in m && less == m - {k} && Wf(e) && Denote(e) == m[k] && GoodName(k)
    requires WfFields(rest) && Distinct(rest) && forall i {:trigger rest[i]} :: 0 <= i < |rest| ==> rest[i].name in less
    requires forall seen: map<string, Value> {:trigger DenoteFields(rest, seen)} :: DenoteFields(rest, seen) == seen + less
    ensures var fs := [Field(k, e)] + rest;
            WfFields(fs) && Distinct(fs)
            && (forall i {:trigger fs[i]} :: 0 <= i < |fs| ==> fs[i].name in m)
            && (forall seen: map<string, Value> {:trigger DenoteFields(fs, seen)} :: DenoteFields(fs, seen) == seen + m)
  {
    var fs := [Field(k, e)] + rest;
    assert fs[1..] == rest;
    forall i | 0 <= i < |fs| ensures fs[i].name in m { if i > 0 { assert fs[i] == rest[i - 1]; } }
    forall i, j | 0 <= i < j < |fs| ensures fs[i].name != fs[j].name {
      assert fs[j] == rest[j - 1];
      if i > 0 { assert fs[i] == rest[i - 1]; }
    }
    forall seen: map<string, Value> {:trigger DenoteFields(fs, seen)} ensures DenoteFields(fs, seen) == seen + m {
      assert DenoteFields(fs, seen) == DenoteFields(rest, seen[k := m[k]]);
      assert seen[k := m[k]] + less == seen + m;
    }
  }

  /** Every printable value is denoted by some expression. */
  lemma {:induction false} EveryValueWritable(v: Value)
    requires Printable(v)
    ensures Writable(v)
    decreases v
  {
    var e: Expr;
    match v {
    case Rec(m) =>
      forall k | k in m ensures Writable(m[k]) { EveryValueWritable(m[k]); }
      var fs := WritableFields(m);
      e := RecE(fs);
      assert DenoteFields(fs, map[]) == map[] + m == m;
    case Set(s) =>
      forall x | x in s ensures Writable(x) { EveryValueWritable(x); }
      var q := Listed(s);
      assert forall i :: 0 <= i < |q| ==> q[i] in Members(q);
      var es := WritableAll(q);
      e := SetE(es);
    case Tuple(q) =>
      forall i | 0 <= i < |q| ensures Writable(q[i]) { EveryValueWritable(q[i]); }
      var es := WritableAll(q);
      e := TupleE(es);
    case Str(s) => e := StrE(s);
    case Int(n) =>
      var s := NumeralOf(n);
      e := IntE(s);
    case Bool(b) => e := BoolE(b);
    }
    assert Wf(e) && Denote(e) == v;
  }

  /** Print any value in any way, with any white space, and parse gives it back: and there is a way. */
  lemma RoundTrip(v: Value) returns (e: Expr)
    requires Printable(v)
    ensures Wf(e) && Denote(e) == v
    ensures forall text {:trigger Spells(text, e)} :: Spells(text, e) ==> Parse(text) == Some(v)
  {
    EveryValueWritable(v);
    e :| Wf(e) && Denote(e) == v;
    forall text {:trigger Spells(text, e)} | Spells(text, e) ensures Parse(text) == Some(v) { ParseSpelled(text, e); }
  }

  // ---- what the parts of an expression denote ----

  /** A tuple has its items' values in order, a set has them in any order and once. */
  lemma {:induction false} DenoteAllAt(es: seq<Expr>, i: nat)
    requires WfAll(es) && i < |es|
    ensures |DenoteAll(es)| == |es| && Wf(es[i]) && DenoteAll(es)[i] == Denote(es[i])
    decreases es
  {
    hide Denote, Wf;
    if |es| > 1 { DenoteAllAt(es[1..], if i > 0 then i - 1 else 0); }
  }

  lemma {:induction false} DenoteFieldsOthers(fs: seq<Field>, seen: map<string, Value>, k: string)
    requires WfFields(fs) && forall j {:trigger fs[j]} :: 0 <= j < |fs| ==> fs[j].name != k
    ensures k in DenoteFields(fs, seen) <==> k in seen
    ensures k in seen ==> DenoteFields(fs, seen)[k] == seen[k]
    decreases fs
  {
    hide Denote, Wf, GoodName;
    if fs != [] { DenoteFieldsOthers(fs[1..], seen[fs[0].name := Denote(fs[0].value)], k); }
  }

  /** A record has each of its fields' values under the field's name, and no other name. */
  lemma {:induction false} DenoteFieldsAt(fs: seq<Field>, seen: map<string, Value>, i: nat)
    requires WfFields(fs) && Distinct(fs) && i < |fs|
    ensures Wf(fs[i].value) && fs[i].name in DenoteFields(fs, seen) && DenoteFields(fs, seen)[fs[i].name] == Denote(fs[i].value)
    decreases fs
  {
    hide Denote, Wf, GoodName;
    var seen' := seen[fs[0].name := Denote(fs[0].value)];
    if i == 0 {
      DenoteFieldsOthers(fs[1..], seen', fs[0].name);
    } else {
      forall a, b | 0 <= a < b < |fs[1..]| ensures fs[1..][a].name != fs[1..][b].name {
        assert fs[1..][a] == fs[a + 1] && fs[1..][b] == fs[b + 1];
      }
      DenoteFieldsAt(fs[1..], seen', i - 1);
    }
  }

  // ---- three texts ----

  lemma TwoItems(open: string, a: string, b: string, close: string)
    ensures Spread([open, a, ",", b, close], ["", "", "", " ", "", ""]) == open + a + ", " + b + close
  {
    var t, g := [open, a, ",", b, close], ["", "", "", " ", "", ""];
    assert Spread([], [""]) == "";
    assert Spread([close], ["", ""]) == close by { assert [close][1..] == [] && ["", ""][1..] == [""]; }
    assert Spread([b, close], [" ", "", ""]) == " " + b + close by {
      assert [b, close][1..] == [close] && [" ", "", ""][1..] == ["", ""];
    }
    assert Spread([",", b, close], ["", " ", "", ""]) == ", " + b + close by {
      assert [",", b, close][1..] == [b, close] && ["", " ", "", ""][1..] == [" ", "", ""];
      assert "" + "," + (" " + b + close) == ", " + b + close;
    }
    assert Spread([a, ",", b, close], ["", "", " ", "", ""]) == a + ", " + b + close by {
      assert [a, ",", b, close][1..] == [",", b, close] && ["", "", " ", "", ""][1..] == ["", " ", "", ""];
      assert "" + a + (", " + b + close) == a + ", " + b + close;
    }
    assert t[1..] == [a, ",", b, close] && g[1..] == ["", "", " ", "", ""];
    assert "" + open + (a + ", " + b + close) == open + a + ", " + b + close;
  }

  lemma SpelledPair(e: Expr, open: string, a: string, b: string, close: string)
    requires Write(e) == [open, a, ",", b, close]
    ensures Spells(open + a + ", " + b + close, e)
  {
    var gaps := ["", "", "", " ", "", ""];
    TwoItems(open, a, b, close);
    assert Gaps(gaps, 5) && Spread(Write(e), gaps) == open + a + ", " + b + close;
  }

  /** Two items of one token each, in braces or angle brackets. */
  lemma PairWritten(x: Expr, y: Expr, a: string, b: string)
    requires Wf(x) && Wf(y) && Write(x) == [a] && Write(y) == [b]
    ensures var es := [x, y];
            && WfAll(es) && DenoteAll(es) == [Denote(x), Denote(y)]
            && Write(SetE(es)) == ["{", a, ",", b, "}"] && Write(TupleE(es)) == ["<<", a, ",", b, ">>"]
  {
    hide Wf, Denote;
    var es := [x, y];
    assert es[1..] == [y] && [y][1..] == [];
    assert WfAll([]) && DenoteAll([]) == [];
    assert WfAll([y]) && DenoteAll([y]) == [Denote(y)];
    assert WriteItems([y], "}") == [b, "}"] && WriteItems([y], ">>") == [b, ">>"];
    assert WriteItems(es, "}") == [a, ",", b, "}"] && WriteItems(es, ">>") == [a, ",", b, ">>"];
  }

  /** What a text of two such items is read as. */
  lemma ParsePair(x: Expr, y: Expr, a: string, b: string)
    requires Wf(x) && Wf(y) && Write(x) == [a] && Write(y) == [b]
    ensures Parse("{" + a + ", " + b + "}") == Some(Set({Denote(x), Denote(y)}))
    ensures Parse("<<" + a + ", " + b + ">>") == Some(Tuple([Denote(x), Denote(y)]))
  {
    hide Parse, Write, DenoteAll, WfAll, Spells;
    PairWritten(x, y, a, b);
    var s, u := SetE([x, y]), TupleE([x, y]);
    SpelledPair(s, "{", a, b, "}");
    SpelledPair(u, "<<", a, b, ">>");
    ParseSpelled("{" + a + ", " + b + "}", s);
    ParseSpelled("<<" + a + ", " + b + ">>", u);
    TwoMembers(Denote(x), Denote(y));
  }

  lemma TwoMembers(v: Value, w: Value)
    ensures Members([v, w]) == {v, w}
  {
    assert [v, w][0] == v && [v, w][1] == w;
  }

  /** Braces are a set of what is in them, numerals are decimal and may be negative. */
  lemma ParseSet()
    ensures Parse("{1, -2}") == Some(Set({Int(1), Int(-2)}))
  {
    hide Parse;
    OneTwo();
    ParsePair(IntE("1"), IntE("-2"), "1", "-2");
    assert "{" + "1" + ", " + "-2" + "}" == "{1, -2}";
  }

  lemma OneTwo()
    ensures IsInt("1") && IsInt("-2") && IntOf("1") == 1 && IntOf("-2") == -2
  {
    hide Digits;
    assert "-2"[1..] == "2";
    OneDigit("1");
    OneDigit("2");
  }

  lemma OneDigit(s: string)
    requires |s| == 1 && IsDigit(s[0])
    ensures AllDigits(s) && Digits(s) == s[0] as int - '0' as int
  {
    assert s[..0] == [];
    assert Digits([]) == 0;
  }

  /** Double angle brackets are a tuple, in order; quotes are a string, TRUE is the truth value. */
  lemma ParseTuple()
    ensures Parse("<<\"x\", TRUE>>") == Some(Tuple([Str("x"), Bool(true)]))
  {
    hide Parse;
    assert "\"" + "x" + "\"" == "\"x\"";
    ParsePair(StrE("x"), BoolE(true), "\"x\"", "TRUE");
    assert "<<" + "\"x\"" + ", " + "TRUE" + ">>" == "<<\"x\", TRUE>>";
  }

  /** Square brackets are a record: the name before the arrow has the value after it. */
  lemma ParseRecord(name: string, x: Expr, a: string)
    requires GoodName(name) && Wf(x) && Write(x) == [a]
    ensures Parse("[" + name + " |-> " + a + "]") == Some(Rec(map[name := Denote(x)]))
  {
    hide Parse, Write, Wf, Denote, GoodName, Spells;
    var fs := [Field(name, x)];
    var e := RecE(fs);
    RecordWritten(name, x, a);
    SpelledRecord(e, name, a);
    ParseSpelled("[" + name + " |-> " + a + "]", e);
  }

  lemma RecordWritten(name: string, x: Expr, a: string)
    requires GoodName(name) && Wf(x) && Write(x) == [a]
    ensures var e := RecE([Field(name, x)]);
            Wf(e) && Write(e) == ["[", name, "|->", a, "]"] && Denote(e) == Rec(map[name := Denote(x)])
  {
    hide GoodName;
    var fs := [Field(name, x)];
    assert fs[1..] == [];
    assert WfFields([]) && WfFields(fs);
    assert DenoteFields([], map[name := Denote(x)]) == map[name := Denote(x)];
    assert DenoteFields(fs, map[]) == map[name := Denote(x)];
    assert WriteFields(fs) == [name, "|->", a, "]"];
  }

  lemma SpelledRecord(e: Expr, name: string, a: string)
    requires Write(e) == ["[", name, "|->", a, "]"]
    ensures Spells("[" + name + " |-> " + a + "]", e)
  {
    hide Write;
    var w, gaps := ["[", name, "|->", a, "]"], ["", "", " ", " ", "", ""];
    RecordSpread(name, a);
    assert Gaps(gaps, 5) && Spread(w, gaps) == "[" + name + " |-> " + a + "]";
  }

  lemma RecordSpread(name: string, a: string)
    ensures Spread(["[", name, "|->", a, "]"], ["", "", " ", " ", "", ""]) == "[" + name + " |-> " + a + "]"
  {
    assert Spread([], [""]) == "";
    assert Spread(["]"], ["", ""]) == "]" by { assert ["]"][1..] == [] && ["", ""][1..] == [""]; }
    assert Spread([a, "]"], [" ", "", ""]) == " " + a + "]" by { assert [a, "]"][1..] == ["]"] && [" ", "", ""][1..] == ["", ""]; }
    assert Spread(["|->", a, "]"], [" ", " ", "", ""]) == " |-> " + a + "]" by {
      assert ["|->", a, "]"][1..] == [a, "]"] && [" ", " ", "", ""][1..] == [" ", "", ""];
      assert " " + "|->" + (" " + a + "]") == " |-> " + a + "]";
    }
    assert Spread([name, "|->", a, "]"], ["", " ", " ", "", ""]) == name + " |-> " + a + "]" by {
      assert [name, "|->", a, "]"][1..] == ["|->", a, "]"] && ["", " ", " ", "", ""][1..] == [" ", " ", "", ""];
      assert "" + name + (" |-> " + a + "]") == name + " |-> " + a + "]";
    }
    var w, gaps := ["[", name, "|->", a, "]"], ["", "", " ", " ", "", ""];
    assert w[1..] == [name, "|->", a, "]"] && gaps[1..] == ["", " ", " ", "", ""];
    assert "" + "[" + (name + " |-> " + a + "]") == "[" + name + " |-> " + a + "]";
  }

  // ---- the parser's loops ----

  /** parse_value. */
  method ParseValueAt(t: seq<string>, i: nat) returns (r: Option<Parsed<Value>>)
    ensures r == ParseValue(t, i)
    decreases |t| - i, 1
  {
    if i >= |t| { return None; }
    if t[i] == "[" {
      var f := ParseFieldsAt(t, i + 1);
      if f.None? { return None; }
      return Some(Parsed(Rec(f.value.value), f.value.next));
    }
    if t[i] == "{" {
      var s := ParseItemsAt(t, i + 1, "}");
      if s.None? { return None; }
      return Some(Parsed(Set(Members(s.value.value)), s.value.next));
    }
    if t[i] == "<<" {
      var s := ParseItemsAt(t, i + 1, ">>");
      if s.None? { return None; }
      return Some(Parsed(Tuple(s.value.value), s.value.next));
    }
    if t[i] != [] && t[i][0] == '"' { return Some(Parsed(Str(Inner(t[i])), i + 1)); }
    if t[i] == "TRUE" { return Some(Parsed(Bool(true), i + 1)); }
    if t[i] == "FALSE" { return Some(Parsed(Bool(false), i + 1)); }
    if IsInt(t[i]) { return Some(Parsed(Int(IntOf(t[i])), i + 1)); }
    return None;
  }

  function Prepend(items: seq<Value>, r: Option<Parsed<seq<Value>>>): Option<Parsed<seq<Value>>> {
    if r.None? then None else Some(Parsed(items + r.value.value, r.value.next))
  }

  /** _items: gather values until the closing token. */
  method ParseItemsAt(t: seq<string>, i: nat, close: string) returns (r: Option<Parsed<seq<Value>>>)
    requires close != ","
    ensures r == ParseItems(t, i, close)
    decreases |t| - i, 3
  {
    hide ParseValue;
    if i >= |t| { return None; }
    if t[i] == close { return Some(Parsed([], i + 1)); }
    var items: seq<Value> := [];
    var j := i;
    assert ParseMore(t, i, close).Some? ==> [] + ParseMore(t, i, close).value.value == ParseMore(t, i, close).value.value;
    while true
      invariant i <= j
      invariant ParseMore(t, i, close) == Prepend(items, ParseMore(t, j, close))
      decreases |t| - j
    {
      var v := ParseValueAt(t, j);
      if v.None? || v.value.next >= |t| { return None; }
      if t[v.value.next] == close {
        return Some(Parsed(items + [v.value.value], v.value.next + 1));
      }
      if t[v.value.next] != "," { return None; }
      ghost var more := ParseMore(t, v.value.next + 1, close);
      assert more.Some? ==> items + ([v.value.value] + more.value.value) == items + [v.value.value] + more.value.value;
      items := items + [v.value.value];
      j := v.value.next + 1;
    }
  }

  /** The record loop of parse_value. */
  method ParseFieldsAt(t: seq<string>, i: nat) returns (r: Option<Parsed<map<string, Value>>>)
    ensures r == ParseFields(t, i, map[])
    decreases |t| - i, 2
  {
    hide ParseValue;
    var rec: map<string, Value> := map[];
    var j := i;
    while true
      invariant i <= j
      invariant ParseFields(t, i, map[]) == ParseFields(t, j, rec)
      decreases |t| - j
    {
      if j + 1 >= |t| || !IsName(t[j]) || t[j + 1] != "|->" { return None; }
      if t[j] in rec { return None; }
      var v := ParseValueAt(t, j + 2);
      if v.None? || v.value.next >= |t| { return None; }
      rec := rec[t[j] := v.value.value];
      if t[v.value.next] == "," {
        j := v.value.next + 1;
      } else if t[v.value.next] == "]" {
        return Some(Parsed(rec, v.value.next + 1));
      } else {
        return None;
      }
    }
  }

  /** parse. */
  method ParseText(text: string) returns (v: Option<Value>)
    ensures v == Parse(text)
  {
    var toks := TokenizeText(text);
    if toks.None? { return None; }
    var p := ParseValueAt(toks.value, 0);
    if p.None? || p.value.next != |toks.value| { return None; }
    return Some(p.value.value);
  }
}
