/**
 The tokenizer of formal/tla_values.py, over ASCII text: it accepts exactly
 the spaced spellings of token lists.
 */
module TlaLexer {
  import opened Common

  predicate IsSpace(c: char) { 9 as char <= c <= 13 as char || 28 as char <= c <= 32 as char }
  predicate IsLetter(c: char) { 'a' <= c <= 'z' || 'A' <= c <= 'Z' || c == '_' }
  predicate IsWord(c: char) { IsLetter(c) || IsDigit(c) }
  predicate NotQuote(c: char) { c != '"' }

  // ---- one token ----

  /** How many leading characters satisfy p. */
  function Lead(s: string, p: char -> bool): (n: nat)
    ensures n <= |s|
    ensures forall i :: 0 <= i < n ==> p(s[i])
    ensures n < |s| ==> !p(s[n])
  {
    if s == [] || !p(s[0]) then 0 else 1 + Lead(s[1..], p)
  }

  lemma {:induction false} LeadIs(a: string, b: string, p: char -> bool)
    requires (forall i :: 0 <= i < |a| ==> p(a[i])) && (b == [] || !p(b[0]))
    ensures Lead(a + b, p) == |a|
    decreases |a|
  {
    if a == [] {
      assert a + b == b;
    } else {
      assert (a + b)[1..] == a[1..] + b;
      LeadIs(a[1..], b, p);
    }
  }

  predicate Starts(s: string, p: string) { |p| <= |s| && s[..|p|] == p }

  /** The length of the token the pattern finds at the front of s; 0 if it finds none. */
  function TokenLen(s: string): (n: nat)
    ensures n <= |s|
  {
    if s == [] then 0
    else if Starts(s, "<<") || Starts(s, ">>") then 2
    else if s[0] in "[]{}," then 1
    else if Starts(s, "|->") then 3
    else if s[0] == '"' then
      var n := Lead(s[1..], NotQuote);
      if n + 1 < |s| then n + 2 else 0
    else if Starts(s, "TRUE") then 4
    else if Starts(s, "FALSE") then 5
    else if s[0] == '-' then
      var n := Lead(s[1..], IsDigit);
      if n > 0 then n + 1 else 0
    else if IsDigit(s[0]) then Lead(s, IsDigit)
    else if IsLetter(s[0]) then Lead(s, IsWord)
    else 0
  }

  predicate IsToken(t: string) { t != [] && TokenLen(t) == |t| }

  predicate Wordy(t: string) { t != [] && (IsWord(t[0]) || t[0] == '-') }

  /** A token that ends in a word character must not be followed by another one. */
  predicate Separates(t: string, rest: string) { Wordy(t) && rest != [] ==> !IsWord(rest[0]) }

  lemma StartsLonger(t: string, rest: string, p: string)
    requires |t| >= |p|
    ensures Starts(t + rest, p) == Starts(t, p)
  {
    assert (t + rest)[..|p|] == t[..|p|];
  }

  /** A keyword cannot begin inside a shorter token and end in what follows it. */
  lemma NoLateKeyword(t: string, rest: string, p: string)
    requires 0 < |t| < |p| && Wordy(t) && Separates(t, rest)
    requires forall i :: 0 <= i < |p| ==> IsWord(p[i])
    ensures !Starts(t + rest, p)
  {
    if |p| <= |t + rest| { assert (t + rest)[..|p|][|t|] == rest[0]; }
  }

  lemma QuoteStart(s: string)
    requires s != [] && s[0] == '"'
    ensures TokenLen(s) == var n := Lead(s[1..], NotQuote); if n + 1 < |s| then n + 2 else 0
  {
    hide Lead;
    if |s| >= 2 { assert s[..2][0] == s[0]; }
    if |s| >= 3 { assert s[..3][0] == s[0]; }
  }

  lemma QuoteFits(t: string, rest: string)
    requires IsToken(t) && t[0] == '"'
    ensures TokenLen(t + rest) == |t|
  {
    hide TokenLen, Lead;
    var s := t + rest;
    QuoteStart(t);
    QuoteStart(s);
    var n := Lead(t[1..], NotQuote);
    var inner, tail := t[1..1 + n], t[1 + n..] + rest;
    assert s[1..] == inner + tail && tail[0] == t[1..][n];
    assert forall i :: 0 <= i < n ==> inner[i] == t[1..][i];
    LeadIs(inner, tail, NotQuote);
  }

  /** Punctuation and strings need no separation. */
  lemma PlainFits(t: string, rest: string)
    requires IsToken(t) && !Wordy(t)
    ensures TokenLen(t + rest) == |t|
  {
    var s := t + rest;
    assert s[0] == t[0];
    if t[0] == '"' {
      QuoteFits(t, rest);
    } else if |t| >= 3 {
      StartsLonger(t, rest, "|->");
    } else if |t| == 2 {
      StartsLonger(t, rest, "<<");
      StartsLonger(t, rest, ">>");
    }
  }

  lemma NotPunctuation(s: string)
    requires Wordy(s)
    ensures !Starts(s, "<<") && !Starts(s, ">>") && !Starts(s, "|->") && s[0] !in "[]{}," && s[0] != '"'
  {
    if |s| >= 2 { assert s[..2][0] == s[0]; }
    if |s| >= 3 { assert s[..3][0] == s[0]; }
  }

  lemma WordyFits(t: string, rest: string)
    requires IsToken(t) && Wordy(t) && Separates(t, rest)
    ensures TokenLen(t + rest) == |t|
  {
    var s := t + rest;
    assert s[0] == t[0];
    NotPunctuation(s);
    if |t| >= 4 { StartsLonger(t, rest, "TRUE"); } else { NoLateKeyword(t, rest, "TRUE"); }
    if |t| >= 5 { StartsLonger(t, rest, "FALSE"); } else { NoLateKeyword(t, rest, "FALSE"); }
    if !Starts(t, "TRUE") && !Starts(t, "FALSE") {
      if t[0] == '-' {
        assert s[1..] == t[1..] + rest;
        LeadIs(t[1..], rest, IsDigit);
      } else if IsDigit(t[0]) {
        LeadIs(t, rest, IsDigit);
      } else {
        LeadIs(t, rest, IsWord);
      }
    }
  }

  lemma TokenFits(t: string, rest: string)
    requires IsToken(t) && Separates(t, rest)
    ensures TokenLen(t + rest) == |t|
  {
    if Wordy(t) { WordyFits(t, rest); } else { PlainFits(t, rest); }
  }

  lemma CutQuote(s: string)
    requires TokenLen(s) > 0 && s[0] == '"'
    ensures IsToken(s[..TokenLen(s)])
  {
    hide TokenLen, Lead;
    QuoteStart(s);
    var n := TokenLen(s);
    var t := s[..n];
    var inner, close := t[1..n - 1], [s[n - 1]];
    QuoteStart(t);
    assert forall i :: 0 <= i < n - 2 ==> inner[i] == s[1..][i];
    assert t[1..] == inner + close && close[0] == s[1..][n - 2];
    LeadIs(inner, close, NotQuote);
  }

  /** What is cut off is a token. */
  lemma CutIsToken(s: string)
    requires TokenLen(s) > 0
    ensures IsToken(s[..TokenLen(s)])
  {
    var n := TokenLen(s);
    var t := s[..n];
    assert t[0] == s[0];
    if Starts(s, "<<") || Starts(s, ">>") {
      assert Starts(t, "<<") == Starts(s, "<<");
    } else if s[0] in "[]{}," {
    } else if Starts(s, "|->") {
      assert t == "|->";
    } else if s[0] == '"' {
      CutQuote(s);
    } else if Starts(s, "TRUE") {
      assert t == "TRUE";
    } else if Starts(s, "FALSE") {
      assert t == "FALSE";
    } else {
      CutWord(s);
    }
  }

  lemma CutWord(s: string)
    requires TokenLen(s) > 0 && (s[0] == '-' || IsWord(s[0])) && !Starts(s, "TRUE") && !Starts(s, "FALSE")
    ensures IsToken(s[..TokenLen(s)])
  {
    NotPunctuation(s);
    var n := TokenLen(s);
    var t := s[..n];
    assert t[0] == s[0];
    NotPunctuation(t);
    assert !Starts(t, "TRUE") by { assert |t| >= 4 ==> t[..4] == s[..4]; }
    assert !Starts(t, "FALSE") by { assert |t| >= 5 ==> t[..5] == s[..5]; }
    if s[0] == '-' {
      assert forall i :: 0 <= i < n - 1 ==> t[1..][i] == s[1..][i];
      LeadIs(t[1..], [], IsDigit);
      assert t[1..] + [] == t[1..];
    } else if IsDigit(s[0]) {
      LeadIs(t, [], IsDigit);
      assert t + [] == t;
    } else {
      LeadIs(t, [], IsWord);
      assert t + [] == t;
    }
  }

  // ---- the whole text ----

  function LexAll(s: string): Option<seq<string>>
    decreases |s|
  {
    if s == [] then Some([])
    else
      var k := Lead(s, IsSpace);
      var n := TokenLen(s[k..]);
      if n == 0 then None
      else
        var rest := LexAll(s[k + n..]);
        if rest.None? then None else Some([s[k..k + n]] + rest.value)
  }

  /** str.rstrip. */
  function RStrip(s: string): (r: string)
    ensures |r| <= |s| && s[..|r|] == r && (r != [] ==> !IsSpace(r[|r| - 1]))
    ensures forall i :: |r| <= i < |s| ==> IsSpace(s[i])
  {
    if s == [] || !IsSpace(s[|s| - 1]) then s else RStrip(s[..|s| - 1])
  }

  function Tokenize(text: string): Option<seq<string>> { LexAll(RStrip(text)) }

  predicate Blank(g: string) { forall i {:trigger g[i]} :: 0 <= i < |g| ==> IsSpace(g[i]) }

  /** The tokens written out with gaps before, between and after them. */
  function Spread(toks: seq<string>, gaps: seq<string>): string
    requires |gaps| == |toks| + 1
    decreases toks
  {
    if toks == [] then gaps[0] else gaps[0] + toks[0] + Spread(toks[1..], gaps[1..])
  }

  predicate Gaps(gaps: seq<string>, n: nat) { |gaps| == n + 1 && forall i {:trigger gaps[i]} :: 0 <= i < |gaps| ==> Blank(gaps[i]) }

  predicate AllTokens(toks: seq<string>) { forall i {:trigger toks[i]} :: 0 <= i < |toks| ==> IsToken(toks[i]) }

  predicate Apart(t: string, u: string) { Wordy(t) && u != [] ==> !IsWord(u[0]) }

  predicate ApartAt(toks: seq<string>, i: nat)
    requires i + 1 < |toks|
  {
    Apart(toks[i], toks[i + 1])
  }

  /** No token that ends in a word character is followed by one that begins with one. */
  predicate Clean(toks: seq<string>) {
    AllTokens(toks) && forall i {:trigger ApartAt(toks, i)} :: 0 <= i && i + 1 < |toks| ==> ApartAt(toks, i)
  }

  lemma SpaceIsNotToken(t: string)
    requires IsToken(t)
    ensures t != [] && !IsSpace(t[0]) && !IsSpace(t[|t| - 1])
  {
    if t[0] == '"' {
      assert t[|t| - 1] == t[1..][|t| - 2];
    } else if t[0] == '-' {
      assert t[|t| - 1] == t[1..][|t| - 2];
    }
  }

  lemma BlankIsNotWord(g: string)
    requires Blank(g) && g != []
    ensures !IsWord(g[0])
  {
  }

  /** What follows a token of a clean list is separated from it. */
  lemma {:induction false} SpreadSeparates(t: string, toks: seq<string>, gaps: seq<string>)
    requires Clean([t] + toks) && Gaps(gaps, |toks|)
    ensures Separates(t, Spread(toks, gaps))
  {
    assert ([t] + toks)[0] == t;
    if gaps[0] != [] {
      BlankIsNotWord(gaps[0]);
    } else if toks != [] {
      assert ApartAt([t] + toks, 0) && ([t] + toks)[1] == toks[0] && IsToken(toks[0]);
    }
  }

  lemma CleanTail(toks: seq<string>)
    requires Clean(toks) && toks != []
    ensures Clean(toks[1..]) && toks == [toks[0]] + toks[1..]
  {
    forall i | 0 <= i < |toks[1..]| ensures IsToken(toks[1..][i]) { assert toks[1..][i] == toks[i + 1]; }
    forall i | 0 <= i && i + 1 < |toks[1..]| ensures ApartAt(toks[1..], i) {
      assert ApartAt(toks, i + 1) && toks[1..][i] == toks[i + 1] && toks[1..][i + 1] == toks[i + 2];
    }
  }

  /** Lexing the written-out list, without its last gap, gives the list back. */
  lemma {:induction false} LexSpread(toks: seq<string>, gaps: seq<string>)
    requires Clean(toks) && Gaps(gaps, |toks|) && gaps[|toks|] == []
    requires toks != [] || gaps[0] == []
    ensures LexAll(Spread(toks, gaps)) == Some(toks)
    decreases toks
  {
    if toks != [] {
      var rest := Spread(toks[1..], gaps[1..]);
      var s := Spread(toks, gaps);
      CleanTail(toks);
      SpreadSeparates(toks[0], toks[1..], gaps[1..]);
      SpaceIsNotToken(toks[0]);
      assert s == gaps[0] + (toks[0] + rest);
      LeadIs(gaps[0], toks[0] + rest, IsSpace);
      assert s[|gaps[0]|..] == toks[0] + rest;
      TokenFits(toks[0], rest);
      assert s[|gaps[0]| + |toks[0]|..] == rest;
      LexSpread(toks[1..], gaps[1..]);
    }
  }

  lemma {:induction false} RStripBlank(a: string, g: string)
    requires Blank(g) && (a == [] || !IsSpace(a[|a| - 1]))
    ensures RStrip(a + g) == a
    decreases |g|
  {
    if g == [] {
      assert a + g == a;
    } else {
      assert (a + g)[|a + g| - 1] == g[|g| - 1];
      assert (a + g)[..|a + g| - 1] == a + g[..|g| - 1];
      RStripBlank(a, g[..|g| - 1]);
    }
  }

  /** The last gap can be taken off. */
  lemma SpreadLast(toks: seq<string>, gaps: seq<string>)
    requires |gaps| == |toks| + 1
    ensures Spread(toks, gaps) == Spread(toks, gaps[|toks| := []]) + gaps[|toks|]
  {
    var n := |toks|;
    var bare := gaps[n := []];
    SpreadAppend(toks, bare, gaps[n]);
    assert bare[n] + gaps[n] == gaps[n];
    assert bare[n := gaps[n]] == gaps;
  }

  /** What is left then ends in a token. */
  lemma {:induction false} SpreadEnds(toks: seq<string>, gaps: seq<string>)
    requires toks != [] && AllTokens(toks) && |gaps| == |toks| + 1 && gaps[|toks|] == []
    ensures Spread(toks, gaps) != [] && !IsSpace(Last(Spread(toks, gaps)))
    decreases toks
  {
    hide IsToken, IsSpace;
    assert IsToken(toks[0]);
    SpaceIsNotToken(toks[0]);
    if |toks| == 1 {
      assert Spread(toks[1..], gaps[1..]) == [];
      assert Spread(toks, gaps) == gaps[0] + toks[0] && Last(gaps[0] + toks[0]) == Last(toks[0]);
    } else {
      var rest := Spread(toks[1..], gaps[1..]);
      forall i | 0 <= i < |toks[1..]| ensures IsToken(toks[1..][i]) { assert toks[1..][i] == toks[i + 1]; }
      SpreadEnds(toks[1..], gaps[1..]);
      assert Last(gaps[0] + toks[0] + rest) == Last(rest);
    }
  }

  function Last(s: string): char
    requires s != []
  {
    s[|s| - 1]
  }

  /** Whatever white space is put around them, the tokens of a clean list come back. */
  lemma TokenizeSpread(toks: seq<string>, gaps: seq<string>)
    requires Clean(toks) && toks != [] && Gaps(gaps, |toks|)
    ensures Tokenize(Spread(toks, gaps)) == Some(toks)
  {
    var bare := gaps[|toks| := []];
    SpreadLast(toks, gaps);
    SpreadEnds(toks, bare);
    RStripBlank(Spread(toks, bare), gaps[|toks|]);
    LexSpread(toks, bare);
  }

  /** Conversely, text that is accepted is its tokens with white space around them. */
  lemma {:induction false} LexedIsSpread(s: string) returns (gaps: seq<string>)
    requires LexAll(s).Some?
    ensures AllTokens(LexAll(s).value) && Gaps(gaps, |LexAll(s).value|) && Spread(LexAll(s).value, gaps) == s
    decreases |s|
  {
    hide TokenLen, Lead, IsToken, AllTokens, Blank, Spread, LexAll;
    if s == [] {
      gaps := [[]];
      LexNothing();
      SpreadNothing();
    } else {
      var k := Lead(s, IsSpace);
      var n := TokenLen(s[k..]);
      LexStep(s, 0);
      assert s[0..] == s;
      var rest := s[k + n..];
      var more := LexedIsSpread(rest);
      CutIsToken(s[k..]);
      LeadBlank(s);
      assert s[k..][..n] == s[k..k + n];
      gaps := SpreadMore(s[..k], s[k..k + n], LexAll(rest).value, more);
      assert s == s[..k] + s[k..k + n] + rest;
    }
  }

  lemma SpreadNothing()
    ensures AllTokens([]) && Gaps([[]], 0) && Spread([], [[]]) == []
  {
  }

  lemma LeadBlank(s: string)
    ensures Blank(s[..Lead(s, IsSpace)])
  {
  }

  lemma SpreadMore(gap: string, tok: string, toks: seq<string>, more: seq<string>) returns (gaps: seq<string>)
    requires Blank(gap) && IsToken(tok) && AllTokens(toks) && Gaps(more, |toks|)
    ensures AllTokens([tok] + toks) && Gaps(gaps, |toks| + 1)
    ensures Spread([tok] + toks, gaps) == gap + tok + Spread(toks, more)
  {
    hide IsToken;
    gaps := [gap] + more;
    var all := [tok] + toks;
    assert all[1..] == toks && gaps[1..] == more;
    forall i | 0 <= i < |all| ensures IsToken(all[i]) { if i > 0 { assert all[i] == toks[i - 1]; } }
    forall i | 0 <= i < |gaps| ensures Blank(gaps[i]) { if i > 0 { assert gaps[i] == more[i - 1]; } }
  }

  lemma TokenizedIsSpread(text: string) returns (gaps: seq<string>)
    requires Tokenize(text).Some?
    ensures var toks := Tokenize(text).value; AllTokens(toks) && Gaps(gaps, |toks|) && Spread(toks, gaps) == text
  {
    hide AllTokens, LexAll, Spread, Gaps, Blank;
    var r := RStrip(text);
    var toks := Tokenize(text).value;
    var bare := LexedIsSpread(r);
    var end := text[|r|..];
    StripBlank(text);
    GapsAppend(bare, |toks|, end);
    gaps := bare[|toks| := bare[|toks|] + end];
    SpreadAppend(toks, bare, end);
    assert text == r + end;
  }

  lemma StripBlank(text: string)
    ensures Blank(text[|RStrip(text)|..])
  {
  }

  lemma GapsAppend(gaps: seq<string>, n: nat, end: string)
    requires Gaps(gaps, n) && Blank(end)
    ensures |gaps| == n + 1 && Gaps(gaps[n := gaps[n] + end], n)
  {
    var more := gaps[n := gaps[n] + end];
    assert Blank(gaps[n] + end);
    forall i | 0 <= i < |more| ensures Blank(more[i]) { assert i == n || more[i] == gaps[i]; }
  }

  lemma {:induction false} SpreadAppend(toks: seq<string>, gaps: seq<string>, end: string)
    requires |gaps| == |toks| + 1
    ensures Spread(toks, gaps[|toks| := gaps[|toks|] + end]) == Spread(toks, gaps) + end
    decreases toks
  {
    if toks != [] {
      assert gaps[|toks| := gaps[|toks|] + end][1..] == gaps[1..][|toks| - 1 := gaps[|toks|] + end];
      SpreadAppend(toks[1..], gaps[1..], end);
    }
  }

  /** The white space the pattern skips. */
  method SkipSpaces(s: string, pos: nat) returns (k: nat)
    requires pos <= |s|
    ensures k == pos + Lead(s[pos..], IsSpace)
  {
    k := pos;
    while k < |s| && IsSpace(s[k])
      invariant pos <= k <= |s| && forall i :: pos <= i < k ==> IsSpace(s[i])
    {
      k := k + 1;
    }
    assert s[pos..] == s[pos..k] + s[k..];
    LeadIs(s[pos..k], s[k..], IsSpace);
  }

  lemma LexStep(s: string, pos: nat)
    requires pos < |s|
    ensures var k := pos + Lead(s[pos..], IsSpace);
            k <= |s|
            && var n := TokenLen(s[k..]); var rest := LexAll(s[k + n..]);
            LexAll(s[pos..]) == if n == 0 then None else Onto([s[k..k + n]], rest)
  {
    hide TokenLen, Lead, LexAll;
    var u := s[pos..];
    var j := Lead(u, IsSpace);
    LexUnfold(u);
    assert u[j..] == s[pos + j..];
    var n := TokenLen(u[j..]);
    assert u[j..j + n] == s[pos + j..pos + j + n] && u[j + n..] == s[pos + j + n..];
  }

  lemma LexUnfold(s: string)
    requires s != []
    ensures var k := Lead(s, IsSpace); var n := TokenLen(s[k..]);
            LexAll(s) == if n == 0 then None else Onto([s[k..k + n]], LexAll(s[k + n..]))
  {
    hide TokenLen, Lead;
  }

  function Onto(toks: seq<string>, rest: Option<seq<string>>): Option<seq<string>> {
    if rest.None? then None else Some(toks + rest.value)
  }

  lemma OntoNothing(rest: Option<seq<string>>)
    ensures Onto([], rest) == rest
  {
    if rest.Some? { assert [] + rest.value == rest.value; }
  }

  lemma OntoMore(toks: seq<string>, t: string, rest: Option<seq<string>>)
    ensures Onto(toks, Onto([t], rest)) == Onto(toks + [t], rest)
  {
    if rest.Some? { assert toks + ([t] + rest.value) == toks + [t] + rest.value; }
  }

  /** tokenize: advance a position through the stripped text. */
  method TokenizeText(text: string) returns (out: Option<seq<string>>)
    ensures out == Tokenize(text)
  {
    hide LexAll, TokenLen, Lead;
    var s := RStrip(text);
    var pos, toks := 0, [];
    assert s[0..] == s;
    assert Onto([], LexAll(s)) == LexAll(s) by { OntoNothing(LexAll(s)); }
    while pos < |s|
      invariant 0 <= pos <= |s|
      invariant LexAll(s) == Onto(toks, LexAll(s[pos..]))
    {
      var k := SkipSpaces(s, pos);
      LexStep(s, pos);
      var n := TokenLen(s[k..]);
      if n == 0 { return None; }
      OntoMore(toks, s[k..k + n], LexAll(s[k + n..]));
      toks := toks + [s[k..k + n]];
      pos := k + n;
    }
    LexNothing();
    assert s[pos..] == [] && toks + [] == toks;
    return Some(toks);
  }

  lemma LexNothing()
    ensures LexAll([]) == Some([])
  {
  }
}
