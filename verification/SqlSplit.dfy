/**
 The quote- and comment-aware statement splitter of internal/store/migrations.go.
 Statements end at a ';' in plain code; "--" in plain code starts a comment that runs to
 the end of its line and is dropped, its newline kept; statements are trimmed and blank
 ones dropped. There are no escapes: a quote character always toggles its own quoting.
 */
module SqlSplit {
  import opened Text

  /** Where the scanner stands: the three Boolean flags of the source as one value. */
  datatype Mode = Code | Single | Double | Comment

  function Flush(b: string): seq<string> {
    if TrimSpace(b) == "" then [] else [TrimSpace(b)]
  }

  function Toggle(q: Mode, c: char): Mode {
    if c == '\'' && q != Double then (if q == Single then Code else Single)
    else if c == '"' && q != Single then (if q == Double then Code else Double)
    else q
  }

  predicate StartsComment(t: string) {
    |t| >= 2 && t[0] == '-' && t[1] == '-'
  }

  /** The statements of the remaining text t, when b is the statement built so far. */
  function Scan(t: string, q: Mode, b: string): seq<string>
    decreases |t|
  {
    if t == "" then Flush(b)
    else if q == Comment then
      if t[0] == '\n' then Scan(t[1..], Code, b + [t[0]]) else Scan(t[1..], Comment, b)
    else if q == Code && StartsComment(t) then Scan(t[2..], Comment, b)
    else if q == Code && t[0] == ';' then Flush(b) + Scan(t[1..], Code, "")
    else Scan(t[1..], Toggle(q, t[0]), b + [t[0]])
  }

  function SplitStatements(sqlText: string): seq<string> {
    Scan(sqlText, Code, "")
  }

  function ModeOf(inSingle: bool, inDouble: bool, inLineComment: bool): Mode {
    if inLineComment then Comment else if inSingle then Single else if inDouble then Double else Code
  }

  method SplitSQLStatements(sqlText: string) returns (stmts: seq<string>)
    ensures stmts == SplitStatements(sqlText)
  {
    hide TrimSpace;
    stmts := [];
    var b := "";
    var inSingle, inDouble, inLineComment := false, false, false;
    var i := 0;
    while i < |sqlText|
      invariant 0 <= i <= |sqlText|
      invariant !(inSingle && inDouble) && (inLineComment ==> !inSingle && !inDouble)
      invariant stmts + Scan(sqlText[i..], ModeOf(inSingle, inDouble, inLineComment), b)
             == SplitStatements(sqlText)
    {
      var ch := sqlText[i];
      var next := if i + 1 < |sqlText| then sqlText[i + 1] else '\0';
      ghost var rest := sqlText[i..];
      assert rest[0] == ch && rest[1..] == sqlText[i + 1..];
      assert |rest| >= 2 ==> rest[1] == next && rest[2..] == sqlText[i + 2..];
      if inLineComment {
        if ch == '\n' {
          inLineComment := false;
          b := b + [ch];
        }
      } else if !inSingle && !inDouble && ch == '-' && next == '-' {
        inLineComment := true;
        i := i + 1;
      } else {
        if ch == '\'' && !inDouble {
          inSingle := !inSingle;
        } else if ch == '"' && !inSingle {
          inDouble := !inDouble;
        }
        if ch == ';' && !inSingle && !inDouble {
          var stmt := TrimSpace(b);
          if stmt != "" {
            stmts := stmts + [stmt];
          }
          b := "";
        } else {
          b := b + [ch];
        }
      }
      i := i + 1;
    }
    var stmt := TrimSpace(b);
    if stmt != "" {
      stmts := stmts + [stmt];
    }
  }

  // ---- Texts the scanner copies unchanged ----------------------------------

  function End(s: string, q: Mode): Mode {
    if s == "" then q else End(s[1..], Toggle(q, s[0]))
  }

  /** Scanned from mode q, s holds no comment and no statement end. */
  predicate Pure(s: string, q: Mode) {
    s != "" ==>
      && q != Comment
      && !(q == Code && (StartsComment(s) || s[0] == ';'))
      && Pure(s[1..], Toggle(q, s[0]))
  }

  /** s ends in a dash that one more dash would turn into a comment. */
  predicate OpenDash(s: string, q: Mode) {
    s != "" && s[|s| - 1] == '-' && End(s, q) == Code
  }

  predicate NextDash(t: string) {
    t != "" && t[0] == '-'
  }

  lemma {:induction false} ScanPure(s: string, r: string, q: Mode, b: string)
    requires q != Comment && Pure(s, q)
    requires !(OpenDash(s, q) && NextDash(r))
    ensures Scan(s + r, q, b) == Scan(r, End(s, q), b + s)
  {
    if s == "" {
      assert s + r == r && b + s == b;
    } else {
      assert (s + r)[1..] == s[1..] + r;
      assert b + [s[0]] + s[1..] == b + s;
      ScanPure(s[1..], r, Toggle(q, s[0]), b + [s[0]]);
    }
  }

  lemma {:induction false} PureAppend(s: string, c: char, q: Mode)
    requires q != Comment && Pure(s, q)
    requires !(End(s, q) == Code && c == ';') && !(OpenDash(s, q) && c == '-')
    ensures Pure(s + [c], q) && End(s + [c], q) == Toggle(End(s, q), c)
  {
    if s != "" {
      assert (s + [c])[1..] == s[1..] + [c];
      PureAppend(s[1..], c, Toggle(q, s[0]));
    }
  }

  lemma {:induction false} PureTrimLeft(s: string)
    requires Pure(s, Code)
    ensures Pure(TrimLeft(s), Code) && End(TrimLeft(s), Code) == End(s, Code)
  {
    if s != "" && IsSpace(s[0]) {
      PureTrimLeft(s[1..]);
    }
  }

  lemma {:induction false} PureDropLastSpace(s: string, q: Mode)
    requires Pure(s, q) && s != "" && IsSpace(s[|s| - 1])
    ensures Pure(s[..|s| - 1], q) && End(s[..|s| - 1], q) == End(s, q)
  {
    if |s| > 1 {
      var t := s[..|s| - 1];
      assert t[1..] == s[1..][..|s| - 2];
      PureDropLastSpace(s[1..], Toggle(q, s[0]));
    }
  }

  lemma {:induction false} PureTrimRight(s: string)
    requires Pure(s, Code)
    ensures Pure(TrimRight(s), Code) && End(TrimRight(s), Code) == End(s, Code)
  {
    if s != "" && IsSpace(s[|s| - 1]) {
      PureDropLastSpace(s, Code);
      PureTrimRight(s[..|s| - 1]);
    }
  }

  // ---- What comes out ------------------------------------------------------

  predicate Settled(p: string) {
    p != "" && Trimmed(p) && Pure(p, Code)
  }

  /** Trimmed, comment-free statements without a ';' of their own; only the last may be left in quotes. */
  predicate Statements(ss: seq<string>) {
    && (forall p | p in ss :: Settled(p))
    && (forall i | 0 <= i < |ss| - 1 :: End(ss[i], Code) == Code)
  }

  lemma FlushSettled(b: string)
    requires Pure(b, Code)
    ensures forall p | p in Flush(b) :: Settled(p) && End(p, Code) == End(b, Code)
  {
    PureTrimLeft(b);
    PureTrimRight(TrimLeft(b));
    TrimSpaceIsTrimmed(b);
  }

  lemma {:induction false} ScanYieldsStatements(t: string, q: Mode, b: string)
    requires Pure(b, Code) && End(b, Code) == (if q == Comment then Code else q)
    requires q == Code ==> !(OpenDash(b, Code) && NextDash(t))
    ensures Statements(Scan(t, q, b))
    decreases |t|
  {
    if t == "" {
      FlushSettled(b);
    } else if q == Comment {
      if t[0] == '\n' {
        PureAppend(b, t[0], Code);
        ScanYieldsStatements(t[1..], Code, b + [t[0]]);
      } else {
        ScanYieldsStatements(t[1..], Comment, b);
      }
    } else if q == Code && StartsComment(t) {
      ScanYieldsStatements(t[2..], Comment, b);
    } else if q == Code && t[0] == ';' {
      FlushSettled(b);
      ScanYieldsStatements(t[1..], Code, "");
    } else {
      PureAppend(b, t[0], Code);
      ScanYieldsStatements(t[1..], Toggle(q, t[0]), b + [t[0]]);
    }
  }

  lemma {:induction false} StatementsScanBack(ss: seq<string>)
    requires Statements(ss)
    ensures SplitStatements(Join(ss, ";")) == ss
  {
    if ss != [] {
      var p := ss[0];
      assert Settled(p);
      TrimSpaceFixes(p);
      assert "" + p == p;
      if |ss| == 1 {
        ScanPure(p, "", Code, "");
        assert p + "" == p;
      } else {
        var rest := Join(ss[1..], ";");
        assert forall i | 0 <= i < |ss[1..]| :: ss[1..][i] == ss[i + 1];
        StatementsScanBack(ss[1..]);
        ScanPure(p, ";" + rest, Code, "");
        assert p + ";" + rest == p + (";" + rest);
        assert (";" + rest)[1..] == rest;
      }
    }
  }

  /** The output is a normal form: joined with ';' and split again it comes back unchanged. */
  lemma SplitNormalForm(sqlText: string)
    ensures Statements(SplitStatements(sqlText))
    ensures SplitStatements(Join(SplitStatements(sqlText), ";")) == SplitStatements(sqlText)
  {
    ScanYieldsStatements(sqlText, Code, "");
    StatementsScanBack(SplitStatements(sqlText));
  }

  // ---- Splitting a concatenation -------------------------------------------

  /** The mode in which the scanner leaves t, comments included. */
  function Final(t: string, q: Mode): Mode
    decreases |t|
  {
    if t == "" then q
    else if q == Comment then Final(t[1..], if t[0] == '\n' then Code else Comment)
    else if q == Code && StartsComment(t) then Final(t[2..], Comment)
    else Final(t[1..], Toggle(q, t[0]))
  }

  lemma {:induction false} ScanConcat(a: string, r: string, q: Mode, b: string)
    requires Final(a, q) == Code
    ensures Scan(a + ";" + r, q, b) == Scan(a, q, b) + Scan(r, Code, "")
    decreases |a|
  {
    var t := a + ";" + r;
    if a == "" {
      assert t == ";" + r && t[1..] == r;
    } else {
      assert t[1..] == a[1..] + ";" + r;
      assert |a| >= 2 ==> t[2..] == a[2..] + ";" + r;
      if q == Comment {
        ScanConcat(a[1..], r, if a[0] == '\n' then Code else Comment, if a[0] == '\n' then b + [a[0]] else b);
      } else if q == Code && StartsComment(a) {
        ScanConcat(a[2..], r, Comment, b);
      } else if q == Code && a[0] == ';' {
        ScanConcat(a[1..], r, Code, "");
      } else {
        ScanConcat(a[1..], r, Toggle(q, a[0]), b + [a[0]]);
      }
    }
  }

  /** In quotes or a comment the rest is swallowed: no statement is added. */
  lemma {:induction false} ScanSwallows(a: string, q: Mode, b: string)
    requires Final(a, q) != Code
    requires q == Single || q == Double ==> TrimSpace(b) != ""
    ensures |Scan(a + ";x", q, b)| == |Scan(a, q, b)|
    decreases |a|
  {
    var t := a + ";x";
    if a == "" {
      assert t == ";x" && t[1..] == "x";
      if q != Comment {
        NonBlankGrows(b, ';');
        NonBlankGrows(b + ";", 'x');
        assert Scan(t, q, b) == Scan("x", q, b + ";") == Scan("", q, b + ";" + "x");
      } else {
        assert Scan(t, q, b) == Scan("x", q, b) == Scan("", q, b);
      }
    } else {
      assert t[1..] == a[1..] + ";x";
      assert |a| >= 2 ==> t[2..] == a[2..] + ";x";
      if q == Comment {
        ScanSwallows(a[1..], if a[0] == '\n' then Code else Comment, if a[0] == '\n' then b + [a[0]] else b);
      } else if q == Code && StartsComment(a) {
        ScanSwallows(a[2..], Comment, b);
      } else if q == Code && a[0] == ';' {
        ScanSwallows(a[1..], Code, "");
      } else {
        NonBlankGrows(b, a[0]);
        ScanSwallows(a[1..], Toggle(q, a[0]), b + [a[0]]);
      }
    }
  }

  lemma NonBlankGrows(b: string, c: char)
    ensures TrimSpace(b) != "" || !IsSpace(c) ==> TrimSpace(b + [c]) != ""
  {
    var lead, tail := TrimSpaceSplits(b);
    if TrimSpace(b) != "" {
      assert b[|lead|] == TrimSpace(b)[0];
      NonBlankStays(b + [c], |lead|);
    } else if !IsSpace(c) {
      NonBlankStays(b + [c], |b|);
    }
  }

  lemma NonBlankStays(s: string, i: nat)
    requires i < |s| && !IsSpace(s[i])
    ensures TrimSpace(s) != ""
  {
    var lead, tail := TrimSpaceSplits(s);
    assert s[i] in lead + TrimSpace(s) + tail;
    assert s[i] in TrimSpace(s);
  }

  /**
   Splitting distributes over a ';' for every continuation exactly when the first text
   ends outside quotes and comments.
   */
  lemma SplitConcat(a: string)
    ensures (forall b :: SplitStatements(a + ";" + b) == SplitStatements(a) + SplitStatements(b))
            <==> Final(a, Code) == Code
  {
    if Final(a, Code) == Code {
      forall b
        ensures SplitStatements(a + ";" + b) == SplitStatements(a) + SplitStatements(b)
      {
        ScanConcat(a, b, Code, "");
      }
    } else {
      ScanSwallows(a, Code, "");
      assert a + ";" + "x" == a + ";x";
      assert SplitStatements("x") == ["x"] by {
        TrimSpaceFixes("x");
        ScanPure("x", "", Code, "");
        assert "x" + "" == "x" && "" + "x" == "x";
      }
      assert |SplitStatements(a + ";" + "x")| < |SplitStatements(a) + SplitStatements("x")|;
    }
  }

  /** Continuations that scan alike from plain code scan alike after a text that ends in plain code. */
  lemma {:induction false} ScanCongruent(a: string, x: string, y: string, q: Mode, b: string)
    requires forall bb :: Scan(x, Code, bb) == Scan(y, Code, bb)
    requires Final(a, q) == Code
    requires a != "" ==> a[|a| - 1] != '-'
    ensures Scan(a + x, q, b) == Scan(a + y, q, b)
    decreases |a|
  {
    hide TrimSpace, Flush;
    if a == "" {
      assert a + x == x && a + y == y;
    } else {
      DropAppend(a, x, 1);
      DropAppend(a, y, 1);
      if |a| >= 2 {
        DropAppend(a, x, 2);
        DropAppend(a, y, 2);
      }
      if q == Comment {
        ScanCongruent(a[1..], x, y, if a[0] == '\n' then Code else Comment,
                      if a[0] == '\n' then b + [a[0]] else b);
      } else if q == Code && StartsComment(a) {
        ScanCongruent(a[2..], x, y, Comment, b);
      } else if q == Code && a[0] == ';' {
        ScanCongruent(a[1..], x, y, Code, "");
      } else {
        ScanCongruent(a[1..], x, y, Toggle(q, a[0]), b + [a[0]]);
      }
    }
  }

  /**
   A comment in plain code leaves only its newline: the statements are those of the text
   without it, wherever the comment stands.
   */
  lemma CommentInvisible(a: string, c: string, r: string)
    requires Final(a, Code) == Code && '\n' !in c
    requires a != "" ==> a[|a| - 1] != '-'
    ensures SplitStatements(a + ("--" + c + "\n" + r)) == SplitStatements(a + ("\n" + r))
  {
    var x, y := "--" + c + "\n" + r, "\n" + r;
    forall bb
      ensures Scan(x, Code, bb) == Scan(y, Code, bb)
    {
      CommentStep(c, r, bb);
    }
    hide Scan, Final;
    ScanCongruent(a, x, y, Code, "");
  }

  lemma CommentStep(c: string, r: string, b: string)
    requires '\n' !in c
    ensures Scan("--" + c + "\n" + r, Code, b) == Scan("\n" + r, Code, b)
  {
    ScanComment(c, r, b);
    Assoc("--", c, "\n");
    Assoc("--", c + "\n", r);
    Cut("--", c + "\n" + r);
    HeadTail('\n', r);
  }

  lemma {:induction false} ScanComment(c: string, r: string, b: string)
    requires '\n' !in c
    ensures Scan(c + "\n" + r, Comment, b) == Scan(r, Code, b + "\n")
  {
    var t := c + "\n" + r;
    if c == "" {
      assert t == "\n" + r && t[1..] == r;
    } else {
      assert t[1..] == c[1..] + "\n" + r;
      ScanComment(c[1..], r, b);
    }
  }
}
