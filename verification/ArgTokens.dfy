/**
 Command lines: the quote-aware tokenizer, the quoter, and exactly which argument lists
 survive the way through both.
 */
module ArgTokens {

  predicate IsWhiteSpace(c: char) {
    '\t' <= c <= '\r' || c == ' ' || c == '\U{0085}' || c == '\U{00A0}' || c == '\U{1680}' ||
    '\U{2000}' <= c <= '\U{200A}' || c == '\U{2028}' || c == '\U{2029}' || c == '\U{202F}' || c == '\U{205F}' || c == '\U{3000}'
  }

  // ---------------------------------------------------------------- the tokenizer

  function Flush(sb: string): seq<string> {
    if sb == [] then [] else [sb]
  }

  /** The tokens of `text`, read inside or outside single and double quotes with `sb` pending. */
  function Scan(text: string, inSingle: bool, inDouble: bool, sb: string): seq<string> {
    if text == [] then Flush(sb)
    else if text[0] == '\'' && !inDouble then Scan(text[1..], !inSingle, inDouble, sb)
    else if text[0] == '"' && !inSingle then Scan(text[1..], inSingle, !inDouble, sb)
    else if IsWhiteSpace(text[0]) && !inSingle && !inDouble then Flush(sb) + Scan(text[1..], inSingle, inDouble, "")
    else Scan(text[1..], inSingle, inDouble, sb + [text[0]])
  }

  lemma {:induction false} BlankScan(text: string)
    requires forall c | c in text :: IsWhiteSpace(c)
    ensures Scan(text, false, false, "") == []
  {
    if text != [] {
      assert IsWhiteSpace(text[0]);
      BlankScan(text[1..]);
    }
  }

  method Tokenize(input: string) returns (result: seq<string>)
    ensures result == Scan(input, false, false, "")
    ensures forall t | t in result :: t != ""
  {
    result := [];
    NonEmpty(input, false, false, "");
    if forall c | c in input :: IsWhiteSpace(c) {
      BlankScan(input);
      return;
    }
    var sb := "";
    var inSingle, inDouble := false, false;
    for i := 0 to |input|
      invariant result + Scan(input[i..], inSingle, inDouble, sb) == Scan(input, false, false, "")
    {
      var c := input[i];
      assert input[i..][0] == c && input[i..][1..] == input[i + 1..];
      if c == '\'' && !inDouble {
        inSingle := !inSingle;
      } else if c == '"' && !inSingle {
        inDouble := !inDouble;
      } else if IsWhiteSpace(c) && !inSingle && !inDouble {
        if |sb| > 0 { result, sb := result + [sb], ""; }
      } else {
        sb := sb + [c];
      }
    }
    if |sb| > 0 { result := result + [sb]; }
  }

  /** No token is ever empty, so an empty argument cannot be passed. */
  lemma {:induction false} NonEmpty(text: string, inSingle: bool, inDouble: bool, sb: string)
    ensures forall t | t in Scan(text, inSingle, inDouble, sb) :: t != ""
    decreases |text|
  {
    if text != [] {
      if text[0] == '\'' && !inDouble { NonEmpty(text[1..], !inSingle, inDouble, sb); }
      else if text[0] == '"' && !inSingle { NonEmpty(text[1..], inSingle, !inDouble, sb); }
      else if IsWhiteSpace(text[0]) && !inSingle && !inDouble { NonEmpty(text[1..], inSingle, inDouble, ""); }
      else { NonEmpty(text[1..], inSingle, inDouble, sb + [text[0]]); }
    }
  }

  // ---------------------------------------------------------------- the quoter

  function Escape(s: string): string {
    if s == [] then [] else (if s[0] == '"' then "\\\"" else [s[0]]) + Escape(s[1..])
  }

  function Quote(s: string): string {
    if s == [] then "\"\""
    else if ' ' in s || '"' in s then "\"" + Escape(s) + "\""
    else s
  }

  function CommandLine(tokens: seq<string>): string {
    if tokens == [] then []
    else if |tokens| == 1 then Quote(tokens[0])
    else Quote(tokens[0]) + " " + CommandLine(tokens[1..])
  }

  /** An argument that the quoter protects or that needs no protection. */
  predicate Safe(t: string) {
    t != "" && '"' !in t && (' ' in t || forall c | c in t :: c != '\'' && !IsWhiteSpace(c))
  }

  // ---------------------------------------------------------------- safe arguments survive

  lemma {:induction false} EscapeNothing(s: string)
    requires '"' !in s
    ensures Escape(s) == s
  {
    if s != [] {
      assert s[0] in s;
      EscapeNothing(s[1..]);
    }
  }

  lemma {:induction false} ScanQuoted(s: string, rest: string, sb: string)
    requires '"' !in s
    ensures Scan(s + rest, false, true, sb) == Scan(rest, false, true, sb + s)
    decreases s
  {
    if s == [] {
      assert s + rest == rest && sb + s == sb;
    } else {
      assert s[0] in s && (s + rest)[1..] == s[1..] + rest && (sb + [s[0]]) + s[1..] == sb + s;
      ScanQuoted(s[1..], rest, sb + [s[0]]);
    }
  }

  predicate Plain(s: string) {
    forall c | c in s :: c != '\'' && c != '"' && !IsWhiteSpace(c)
  }

  lemma {:induction false} ScanPlain(s: string, rest: string, sb: string)
    requires Plain(s)
    ensures Scan(s + rest, false, false, sb) == Scan(rest, false, false, sb + s)
    decreases s
  {
    if s == [] {
      assert s + rest == rest && sb + s == sb;
    } else {
      assert s[0] in s && (s + rest)[1..] == s[1..] + rest && (sb + [s[0]]) + s[1..] == sb + s;
      assert forall c | c in s[1..] :: c in s;
      ScanPlain(s[1..], rest, sb + [s[0]]);
    }
  }

  lemma ScanMark(rest: string, inDouble: bool, sb: string)
    ensures Scan("\"" + rest, false, inDouble, sb) == Scan(rest, false, !inDouble, sb)
  {
    assert ("\"" + rest)[1..] == rest;
  }

  lemma ScanSpace(rest: string, sb: string)
    ensures Scan(" " + rest, false, false, sb) == Flush(sb) + Scan(rest, false, false, "")
  {
    assert (" " + rest)[1..] == rest;
  }

  lemma ScanProtected(t: string, rest: string)
    requires '"' !in t
    ensures Scan("\"" + (t + ("\"" + rest)), false, false, "") == Scan(rest, false, false, t)
  {
    ScanMark(t + ("\"" + rest), false, "");
    ScanQuoted(t, "\"" + rest, "");
    ScanMark(rest, true, t);
    assert "" + t == t;
  }

  /** Reading a safe argument's quoted form leaves the argument pending, outside quotes. */
  lemma ScanSafe(t: string, rest: string)
    requires Safe(t)
    ensures Scan(Quote(t) + rest, false, false, "") == Scan(rest, false, false, t)
  {
    if ' ' in t {
      EscapeNothing(t);
      assert Quote(t) + rest == "\"" + (t + ("\"" + rest));
      ScanProtected(t, rest);
    } else {
      ScanPlain(t, rest, "");
      assert "" + t == t;
    }
  }

  lemma ScanSafeFirst(t: string, rest: string)
    requires Safe(t)
    ensures Scan(Quote(t) + (" " + rest), false, false, "") == [t] + Scan(rest, false, false, "")
  {
    ScanSafe(t, " " + rest);
    ScanSpace(rest, t);
  }

  lemma LineFirst(tokens: seq<string>)
    requires |tokens| > 1
    ensures CommandLine(tokens) == Quote(tokens[0]) + (" " + CommandLine(tokens[1..]))
  {
  }

  /** A safe first argument is read back and the rest of the line is read from scratch. */
  lemma ScanFirst(tokens: seq<string>)
    requires tokens != [] && Safe(tokens[0])
    ensures Scan(CommandLine(tokens), false, false, "") == [tokens[0]] + Scan(CommandLine(tokens[1..]), false, false, "")
  {
    if |tokens| == 1 {
      ScanSafeOnly(tokens[0]);
    } else {
      LineFirst(tokens);
      ScanSafeFirst(tokens[0], CommandLine(tokens[1..]));
    }
  }

  lemma ScanSafeOnly(t: string)
    requires Safe(t)
    ensures Scan(Quote(t), false, false, "") == [t]
  {
    assert Quote(t) + "" == Quote(t);
    ScanSafe(t, "");
  }

  // ---------------------------------------------------------------- nothing else survives

  function Count(s: string, c: char): nat {
    if s == [] then 0 else (if s[0] == c then 1 else 0) + Count(s[1..], c)
  }

  function Total(tokens: seq<string>, c: char): nat {
    if tokens == [] then 0 else Count(tokens[0], c) + Total(tokens[1..], c)
  }

  lemma {:induction false} CountConcat(a: string, b: string, c: char)
    ensures Count(a + b, c) == Count(a, c) + Count(b, c)
  {
    if a == [] {
      assert a + b == b;
    } else {
      assert (a + b)[1..] == a[1..] + b;
      CountConcat(a[1..], b, c);
    }
  }

  lemma {:induction false} CountIn(s: string, c: char)
    ensures Count(s, c) > 0 <==> c in s
  {
    if s != [] { CountIn(s[1..], c); }
  }

  lemma {:induction false} TotalConcat(a: seq<string>, b: seq<string>, c: char)
    ensures Total(a + b, c) == Total(a, c) + Total(b, c)
  {
    if a == [] {
      assert a + b == b;
    } else {
      assert (a + b)[1..] == a[1..] + b;
      TotalConcat(a[1..], b, c);
    }
  }

  lemma TotalFlush(sb: string, c: char)
    ensures Total(Flush(sb), c) == Count(sb, c)
  {
    if sb != [] { assert [sb][1..] == []; }
  }

  /** The tokenizer only ever drops characters, and only quotes and white space. */
  lemma {:induction false} ScanCounts(text: string, inSingle: bool, inDouble: bool, sb: string, c: char)
    ensures Total(Scan(text, inSingle, inDouble, sb), c) <= Count(sb, c) + Count(text, c)
    ensures c != '\'' && c != '"' && !IsWhiteSpace(c) ==>
              Total(Scan(text, inSingle, inDouble, sb), c) == Count(sb, c) + Count(text, c)
    decreases |text|
  {
    TotalFlush(sb, c);
    if text != [] {
      if text[0] == '\'' && !inDouble { ScanCounts(text[1..], !inSingle, inDouble, sb, c); }
      else if text[0] == '"' && !inSingle { ScanCounts(text[1..], inSingle, !inDouble, sb, c); }
      else if IsWhiteSpace(text[0]) && !inSingle && !inDouble {
        ScanCounts(text[1..], inSingle, inDouble, "", c);
        TotalConcat(Flush(sb), Scan(text[1..], inSingle, inDouble, ""), c);
      } else {
        ScanCounts(text[1..], inSingle, inDouble, sb + [text[0]], c);
        CountConcat(sb, [text[0]], c);
      }
    }
  }

  lemma {:induction false} EscapeCounts(s: string, c: char)
    ensures Count(Escape(s), c) == Count(s, c) + if c == '\\' then Count(s, '"') else 0
  {
    if s != [] {
      EscapeCounts(s[1..], c);
      var head := if s[0] == '"' then "\\\"" else [s[0]];
      CountConcat(head, Escape(s[1..]), c);
      assert "\\\""[1..] == "\"" && "\""[1..] == "" && [s[0]][1..] == "";
    }
  }

  /** Quoting adds quote marks, and one backslash for every quote mark it finds. */
  lemma QuoteCounts(t: string, c: char)
    requires c != '"'
    ensures Count(Quote(t), c) == Count(t, c) + if c == '\\' then Count(t, '"') else 0
  {
    CountIn(t, '"');
    assert "\""[1..] == "" && "\"\""[1..] == "\"";
    if t != [] && (' ' in t || '"' in t) {
      EscapeCounts(t, c);
      CountConcat("\"" + Escape(t), "\"", c);
      CountConcat("\"", Escape(t), c);
    }
  }

  lemma {:induction false} LineCounts(tokens: seq<string>, c: char)
    requires c != '"' && c != ' '
    ensures Count(CommandLine(tokens), c) == Total(tokens, c) + if c == '\\' then Total(tokens, '"') else 0
  {
    if tokens != [] {
      QuoteCounts(tokens[0], c);
      LineCounts(tokens[1..], c);
      if |tokens| > 1 {
        CountConcat(Quote(tokens[0]) + " ", CommandLine(tokens[1..]), c);
        CountConcat(Quote(tokens[0]), " ", c);
        assert " "[1..] == "";
      }
    }
  }

  lemma {:induction false} TotalZero(tokens: seq<string>, c: char)
    requires Total(tokens, c) == 0
    ensures forall t | t in tokens :: c !in t
  {
    if tokens != [] {
      CountIn(tokens[0], c);
      TotalZero(tokens[1..], c);
      assert forall t :: t in tokens <==> t == tokens[0] || t in tokens[1..];
    }
  }

  /** A list with a quote mark in it gains backslashes on the way and does not come back. */
  lemma QuoteMarksShow(tokens: seq<string>)
    requires Scan(CommandLine(tokens), false, false, "") == tokens
    ensures forall t | t in tokens :: '"' !in t
  {
    ScanCounts(CommandLine(tokens), false, false, "", '\\');
    LineCounts(tokens, '\\');
    TotalZero(tokens, '"');
  }

  /** Splits off the plain characters before the first that the tokenizer would drop. */
  lemma {:induction false} FirstDropped(t: string) returns (u: string, c: char, v: string)
    requires '"' !in t && !Plain(t)
    ensures t == u + [c] + v && Plain(u) && c != '"' && (c == '\'' || IsWhiteSpace(c))
  {
    if t[0] != '\'' && !IsWhiteSpace(t[0]) {
      assert t[0] in t && t == [t[0]] + t[1..];
      u, c, v := FirstDropped(t[1..]);
      u := [t[0]] + u;
    } else {
      u, c, v := "", t[0], t[1..];
    }
  }

  /** An unprotected argument loses a character, so the line does not come back. */
  lemma {:induction false} UnsafeShows(tokens: seq<string>)
    requires tokens != [] && tokens[0] != "" && '"' !in tokens[0] && !Safe(tokens[0])
    ensures Scan(CommandLine(tokens), false, false, "") != tokens
  {
    var t := tokens[0];
    var u, c, v := FirstDropped(t);
    assert c in t;
    var line := CommandLine(tokens);
    var rest := if |tokens| == 1 then "" else " " + CommandLine(tokens[1..]);
    var tail := v + rest;
    assert line == u + ([c] + tail);
    ScanPlain(u, [c] + tail, "");
    assert "" + u == u;
    DroppedCounts(u, c, tail);
    LineCounts(tokens, c);
    assert Total(Scan(line, false, false, ""), c) < Total(tokens, c);
  }

  /** An apostrophe or white space outside quotes is missing from what the tokenizer makes of it. */
  lemma DroppedCounts(u: string, c: char, tail: string)
    requires c == '\'' || (c != '"' && IsWhiteSpace(c))
    ensures Total(Scan([c] + tail, false, false, u), c) < Count(u + ([c] + tail), c)
  {
    assert ([c] + tail)[1..] == tail;
    CountConcat(u, [c] + tail, c);
    if c == '\'' {
      ScanCounts(tail, true, false, u, c);
    } else {
      ScanCounts(tail, false, false, "", c);
      TotalFlush(u, c);
      TotalConcat(Flush(u), Scan(tail, false, false, ""), c);
    }
  }

  lemma {:induction false} SurvivorsSafe(tokens: seq<string>)
    requires forall t | t in tokens :: t != "" && '"' !in t
    requires Scan(CommandLine(tokens), false, false, "") == tokens
    ensures forall t | t in tokens :: Safe(t)
  {
    if tokens != [] {
      assert tokens[0] in tokens;
      if Safe(tokens[0]) {
        ScanFirst(tokens);
        assert tokens == [tokens[0]] + tokens[1..];
        assert forall x | x in tokens[1..] :: x in tokens;
        SurvivorsSafe(tokens[1..]);
        assert forall t :: t in tokens <==> t == tokens[0] || t in tokens[1..];
      } else {
        UnsafeShows(tokens);
      }
    }
  }

  /** An argument list comes back from its quoted command line exactly when every argument is safe. */
  lemma {:induction false} RoundTripIff(tokens: seq<string>)
    ensures Scan(CommandLine(tokens), false, false, "") == tokens <==> forall t | t in tokens :: Safe(t)
  {
    if Scan(CommandLine(tokens), false, false, "") == tokens {
      NonEmpty(CommandLine(tokens), false, false, "");
      QuoteMarksShow(tokens);
      SurvivorsSafe(tokens);
    }
    if forall t | t in tokens :: Safe(t) { SafeSurvive(tokens); }
  }

  lemma {:induction false} SafeSurvive(tokens: seq<string>)
    requires forall t | t in tokens :: Safe(t)
    ensures Scan(CommandLine(tokens), false, false, "") == tokens
  {
    if tokens != [] {
      assert tokens[0] in tokens;
      ScanFirst(tokens);
      SafeSurvive(tokens[1..]);
    }
  }
}
