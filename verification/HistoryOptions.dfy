/**
 Command options of the history CLI: one validator walks the arguments, and every value is
 later looked up by a scan of its own.  On accepted arguments the scans agree with the walk.
 */
module HistoryOptions {
  import opened Options
  import opened Texts

  /** One option as written, with its value when it takes one. */
  datatype Setting = Valued(name: string, value: string) | Flag(name: string)

  /** The options a command knows, in lower case. */
  datatype Grammar = Grammar(values: set<string>, flags: set<string>)

  predicate Dashed(token: string) {
    |token| >= 2 && token[0] == '-' && token[1] == '-'
  }

  predicate SameOption(token: string, option: string) {
    Fold(token) == Fold(option)
  }

  predicate TakesValue(g: Grammar, token: string) { Fold(token) in g.values }

  lemma FoldDashed(token: string)
    ensures Dashed(Fold(token)) <==> Dashed(token)
  {
  }

  // ---------------------------------------------------------------- the validator

  datatype Verdict = Accepted | Unexpected(token: string) | MissingValue(token: string) | Unknown(token: string)

  function Validate(args: seq<string>, g: Grammar): Verdict {
    if args == [] then Accepted
    else if !Dashed(args[0]) then Unexpected(args[0])
    else if TakesValue(g, args[0]) then
      if |args| == 1 || Dashed(args[1]) then MissingValue(args[0]) else Validate(args[2..], g)
    else if Fold(args[0]) in g.flags then Validate(args[1..], g)
    else Unknown(args[0])
  }

  method ValidateCommandOptions(args: seq<string>, startIndex: nat, g: Grammar) returns (verdict: Verdict)
    requires startIndex <= |args|
    ensures verdict == Validate(args[startIndex..], g)
  {
    var i := startIndex;
    while i < |args|
      invariant startIndex <= i <= |args| && Validate(args[i..], g) == Validate(args[startIndex..], g)
    {
      var token := args[i];
      assert args[i..][1..] == args[i + 1..];
      if !Dashed(token) { return Unexpected(token); }
      if TakesValue(g, token) {
        if i + 1 >= |args| || Dashed(args[i + 1]) { return MissingValue(token); }
        assert args[i..][2..] == args[i + 2..];
        i := i + 2;
      } else if Fold(token) in g.flags {
        i := i + 1;
      } else {
        return Unknown(token);
      }
    }
    return Accepted;
  }

  // ---------------------------------------------------------------- one left-to-right parse

  function Parse(args: seq<string>, g: Grammar): seq<Setting> {
    if args == [] then []
    else if TakesValue(g, args[0]) && |args| > 1 then [Valued(args[0], args[1])] + Parse(args[2..], g)
    else [Flag(args[0])] + Parse(args[1..], g)
  }

  function Written(s: Setting): seq<string> {
    if s.Valued? then [s.name, s.value] else [s.name]
  }

  function Render(settings: seq<Setting>): seq<string> {
    if settings == [] then [] else Written(settings[0]) + Render(settings[1..])
  }

  predicate Proper(g: Grammar, s: Setting) {
    Dashed(s.name) &&
    if s.Valued? then TakesValue(g, s.name) && !Dashed(s.value) else !TakesValue(g, s.name) && Fold(s.name) in g.flags
  }

  /** An accepted argument list is the rendering of its own parse, and every setting in it is proper. */
  lemma {:induction false} AcceptedParses(args: seq<string>, g: Grammar)
    requires Validate(args, g).Accepted?
    ensures Render(Parse(args, g)) == args && forall s | s in Parse(args, g) :: Proper(g, s)
  {
    if args != [] {
      if TakesValue(g, args[0]) {
        AcceptedParses(args[2..], g);
        assert args == [args[0], args[1]] + args[2..];
        assert Parse(args, g)[1..] == Parse(args[2..], g);
      } else {
        AcceptedParses(args[1..], g);
        assert args == [args[0]] + args[1..];
        assert Parse(args, g)[1..] == Parse(args[1..], g);
      }
    }
  }

  /** Any list of proper settings is accepted as written, and parses back to itself. */
  lemma {:induction false} ProperAccepted(settings: seq<Setting>, g: Grammar)
    requires forall s | s in settings :: Proper(g, s)
    ensures Validate(Render(settings), g).Accepted? && Parse(Render(settings), g) == settings
  {
    if settings != [] {
      var s := settings[0];
      assert Proper(g, s) by { assert s in settings; }
      ProperAccepted(settings[1..], g);
      var args := Render(settings);
      assert args[|Written(s)|..] == Render(settings[1..]);
      assert settings == [s] + settings[1..];
    }
  }

  // ---------------------------------------------------------------- the scanners

  /** The token after the first matching one that has a token after it. */
  function ScanOption(args: seq<string>, option: string): Option<string> {
    if args == [] then None
    else if SameOption(args[0], option) && |args| > 1 then Some(args[1])
    else ScanOption(args[1..], option)
  }

  method TryReadOption(args: seq<string>, startIndex: nat, option: string) returns (value: Option<string>)
    requires startIndex <= |args|
    ensures value == ScanOption(args[startIndex..], option)
  {
    for i := startIndex to |args|
      invariant ScanOption(args[i..], option) == ScanOption(args[startIndex..], option)
    {
      assert args[i..][1..] == args[i + 1..];
      if SameOption(args[i], option) && i + 1 < |args| { return Some(args[i + 1]); }
    }
    return None;
  }

  method HasFlag(args: seq<string>, startIndex: nat, flag: string) returns (found: bool)
    requires startIndex <= |args|
    ensures found <==> exists i :: startIndex <= i < |args| && SameOption(args[i], flag)
  {
    for i := startIndex to |args|
      invariant forall k | startIndex <= k < i :: !SameOption(args[k], flag)
    {
      if SameOption(args[i], flag) { return true; }
    }
    return false;
  }

  predicate Separates(c: char) { c == ',' || c == ';' }

  /** A piece of a list value: trimmed, and none if nothing is left. */
  function PieceOf(text: string): seq<string> {
    if Trim(text) == "" then [] else [Trim(text)]
  }

  /** The rest of a value, with the part of a piece that has been read. */
  function SplitFrom(piece: string, rest: string): seq<string>
    decreases rest
  {
    if rest == [] then PieceOf(piece)
    else if Separates(rest[0]) then PieceOf(piece) + SplitFrom("", rest[1..])
    else SplitFrom(piece + [rest[0]], rest[1..])
  }

  function Pieces(value: string): seq<string> { SplitFrom("", value) }

  /** The pieces of every value that a scan finds behind the option, skipping each value it has read. */
  function ScanList(args: seq<string>, option: string): seq<string> {
    if args == [] then []
    else if !SameOption(args[0], option) then ScanList(args[1..], option)
    else if |args| == 1 then []
    else Pieces(args[1]) + ScanList(args[2..], option)
  }

  method AddAll(values: seq<string>, candidates: seq<string>) returns (all: seq<string>)
    ensures all == values + candidates
  {
    all := values;
    for k := 0 to |candidates|
      invariant all == values + candidates[..k]
    {
      all := all + [candidates[k]];
    }
  }

  method ReadOptionValueList(args: seq<string>, startIndex: nat, option: string)
    returns (values: seq<string>)
    requires startIndex <= |args|
    ensures values == ScanList(args[startIndex..], option)
  {
    values := [];
    var i := startIndex;
    while i < |args|
      invariant startIndex <= i <= |args|
      invariant values + ScanList(args[i..], option) == ScanList(args[startIndex..], option)
    {
      assert args[i..][1..] == args[i + 1..];
      if !SameOption(args[i], option) {
        i := i + 1;
      } else if i + 1 >= |args| {
        return;
      } else {
        assert args[i..][2..] == args[i + 2..];
        ghost var before, rest := values, ScanList(args[i + 2..], option);
        values := AddAll(values, Pieces(args[i + 1]));
        assert before + (Pieces(args[i + 1]) + rest) == values + rest;
        i := i + 2;
      }
    }
  }

  // ---------------------------------------------------------------- the pieces of a list value

  /** What a list may hold: neither blank, nor separated, nor with space around it. */
  predicate Clean(piece: string) {
    piece != "" && Trim(piece) == piece && forall c | c in piece :: !Separates(c)
  }

  lemma {:induction false} TrimStartFacts(s: string)
    ensures TrimStart(s) != "" ==> !IsSpace(TrimStart(s)[0])
    ensures forall c | c in TrimStart(s) :: c in s
  {
    if s != [] && IsSpace(s[0]) { TrimStartFacts(s[1..]); }
  }

  lemma {:induction false} TrimEndFacts(s: string)
    ensures TrimEnd(s) <= s && (TrimEnd(s) != "" ==> !IsSpace(TrimEnd(s)[|TrimEnd(s)| - 1]))
    ensures TrimEnd(TrimEnd(s)) == TrimEnd(s)
  {
    if s != [] && IsSpace(s[|s| - 1]) { TrimEndFacts(s[..|s| - 1]); }
  }

  lemma TrimTwice(s: string)
    ensures Trim(Trim(s)) == Trim(s) && forall c | c in Trim(s) :: c in s
  {
    TrimStartFacts(s);
    TrimEndFacts(TrimStart(s));
    var t := Trim(s);
    if t != "" { assert t[0] == TrimStart(s)[0]; }
    assert TrimStart(t) == t;
  }

  /** Whatever the value, its pieces are clean. */
  lemma {:induction false} PiecesClean(piece: string, rest: string)
    requires forall c | c in piece :: !Separates(c)
    ensures forall p | p in SplitFrom(piece, rest) :: Clean(p)
    decreases rest
  {
    TrimTwice(piece);
    if rest != [] {
      if Separates(rest[0]) { PiecesClean("", rest[1..]); } else { PiecesClean(piece + [rest[0]], rest[1..]); }
    }
  }

  function Joined(pieces: seq<string>): string {
    if pieces == [] then "" else if |pieces| == 1 then pieces[0] else pieces[0] + [','] + Joined(pieces[1..])
  }

  lemma {:induction false} SplitOver(piece: string, more: string, rest: string)
    requires forall c | c in more :: !Separates(c)
    ensures SplitFrom(piece, more + rest) == SplitFrom(piece + more, rest)
    decreases more
  {
    if more == [] {
      assert more + rest == rest && piece + more == piece;
    } else {
      assert (more + rest)[0] == more[0] && (more + rest)[1..] == more[1..] + rest;
      SplitOver(piece + [more[0]], more[1..], rest);
      assert piece + [more[0]] + more[1..] == piece + more;
    }
  }

  /** A list of clean pieces comes back from its comma-separated text. */
  lemma {:induction false} JoinedPieces(pieces: seq<string>)
    requires forall p | p in pieces :: Clean(p)
    ensures Pieces(Joined(pieces)) == pieces
  {
    if pieces == [] {
      assert Trim("") == "";
    } else {
      var p := pieces[0];
      assert Clean(p);
      if |pieces| == 1 {
        SplitOver("", p, "");
        assert p + "" == p && "" + p == p;
      } else {
        var rest := [','] + Joined(pieces[1..]);
        assert Joined(pieces) == p + rest;
        SplitOver("", p, rest);
        assert "" + p == p && rest[1..] == Joined(pieces[1..]);
        JoinedPieces(pieces[1..]);
      }
    }
  }

  // ---------------------------------------------------------------- agreement

  function FirstValue(settings: seq<Setting>, option: string): Option<string> {
    if settings == [] then None
    else if settings[0].Valued? && SameOption(settings[0].name, option) then Some(settings[0].value)
    else FirstValue(settings[1..], option)
  }

  function AllValues(settings: seq<Setting>, option: string): seq<string> {
    if settings == [] then []
    else (if settings[0].Valued? && SameOption(settings[0].name, option) then Pieces(settings[0].value) else [])
         + AllValues(settings[1..], option)
  }

  predicate Mentions(settings: seq<Setting>, option: string) {
    exists s :: s in settings && SameOption(s.name, option)
  }

  /** A value is never mistaken for an option, whatever its case. */
  lemma ValueIsNoOption(value: string, option: string)
    requires !Dashed(value) && Dashed(option)
    ensures !SameOption(value, option)
  {
    FoldDashed(value);
    FoldDashed(option);
  }

  /** On accepted arguments, looking up an option finds the first value the parse gives it. */
  lemma {:induction false} OptionAgrees(args: seq<string>, g: Grammar, option: string)
    requires Validate(args, g).Accepted? && Dashed(option) && TakesValue(g, option)
    ensures ScanOption(args, option) == FirstValue(Parse(args, g), option)
  {
    if args != [] {
      if TakesValue(g, args[0]) {
        OptionAgrees(args[2..], g, option);
        assert args[1..][1..] == args[2..] && Parse(args, g)[1..] == Parse(args[2..], g);
        ValueIsNoOption(args[1], option);
      } else {
        OptionAgrees(args[1..], g, option);
        assert Parse(args, g)[1..] == Parse(args[1..], g);
      }
    }
  }

  /** The list reader sees every occurrence, in order. */
  lemma {:induction false} ListAgrees(args: seq<string>, g: Grammar, option: string)
    requires Validate(args, g).Accepted? && Dashed(option) && TakesValue(g, option)
    ensures ScanList(args, option) == AllValues(Parse(args, g), option)
  {
    if args != [] {
      if TakesValue(g, args[0]) {
        ListAgrees(args[2..], g, option);
        assert args[1..][1..] == args[2..] && Parse(args, g)[1..] == Parse(args[2..], g);
        ValueIsNoOption(args[1], option);
      } else {
        ListAgrees(args[1..], g, option);
        assert Parse(args, g)[1..] == Parse(args[1..], g);
      }
    }
  }

  /** Some argument matches the flag. */
  predicate Holds(args: seq<string>, flag: string) {
    exists i :: 0 <= i < |args| && SameOption(args[i], flag)
  }

  lemma HoldsBehind(args: seq<string>, k: nat, flag: string)
    requires 0 < k <= |args| && forall i | 0 < i < k :: !SameOption(args[i], flag)
    ensures Holds(args, flag) <==> SameOption(args[0], flag) || Holds(args[k..], flag)
  {
    var rest := args[k..];
    if Holds(args, flag) {
      var i :| 0 <= i < |args| && SameOption(args[i], flag);
      assert i >= k ==> rest[i - k] == args[i];
    }
    if Holds(rest, flag) {
      var i :| 0 <= i < |rest| && SameOption(rest[i], flag);
      assert args[i + k] == rest[i];
    }
  }

  /** A flag is found exactly when the parse mentions it. */
  lemma {:induction false} FlagAgrees(args: seq<string>, g: Grammar, flag: string)
    requires Validate(args, g).Accepted? && Dashed(flag)
    ensures Holds(args, flag) <==> Mentions(Parse(args, g), flag)
  {
    if args != [] {
      var k := if TakesValue(g, args[0]) then 2 else 1;
      var rest, p := args[k..], Parse(args, g);
      FlagAgrees(rest, g, flag);
      assert p[1..] == Parse(rest, g) && p[0].name == args[0];
      if k == 2 { ValueIsNoOption(args[1], flag); }
      assert Mentions(p, flag) <==> SameOption(args[0], flag) || Mentions(p[1..], flag);
      HoldsBehind(args, k, flag);
    }
  }

  /** Asked for a flag instead of an option with a value, the scanner takes the next option for its value. */
  lemma FlagReadAsOption(g: Grammar, a: string, b: string)
    requires Dashed(a) && Dashed(b) && !TakesValue(g, a) && !TakesValue(g, b) && Fold(a) in g.flags && Fold(b) in g.flags
    ensures Validate([a, b], g).Accepted?
    ensures ScanOption([a, b], a) == Some(b) && FirstValue(Parse([a, b], g), a) == None
  {
    assert [a, b][1..] == [b] && [b][1..] == [];
    assert Validate([b], g).Accepted? && Parse([b], g) == [Flag(b)];
    assert Parse([a, b], g)[1..] == [Flag(b)] && [Flag(b)][1..] == [];
    assert FirstValue([Flag(b)], a) == None;
  }
}
