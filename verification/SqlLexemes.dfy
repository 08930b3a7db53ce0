/**
 The statement splitter by the words of SQL text (internal/store/migrations.go:158-202): what it
 yields is told from the text's lexemes, without a scanner, and every text has lexemes.
 */
module SqlLexemes {
  import opened Text
  import opened SqlSplit

  datatype Lexeme =
    | Plain(c: char)
    | Quoted(q: char, body: string)
    | Remark(body: string)
    | Semicolon

  /** What a text may break off in. */
  datatype Tail = Nothing | OpenQuote(q: char, body: string) | OpenRemark(body: string)

  function Spelled(x: Lexeme): string {
    match x
    case Plain(c) => [c]
    case Quoted(q, body) => [q] + body + [q]
    case Remark(body) => "--" + body + "\n"
    case Semicolon => ";"
  }

  function SpelledTail(t: Tail): string {
    match t
    case Nothing => ""
    case OpenQuote(q, body) => [q] + body
    case OpenRemark(body) => "--" + body
  }

  function Render(xs: seq<Lexeme>, t: Tail): string {
    if xs == [] then SpelledTail(t) else Spelled(xs[0]) + Render(xs[1..], t)
  }

  predicate IsQuote(c: char) {
    c == '\'' || c == '"'
  }

  predicate Lexical(x: Lexeme) {
    match x
    case Plain(c) => c != ';' && !IsQuote(c)
    case Quoted(q, body) => IsQuote(q) && q !in body
    case Remark(body) => '\n' !in body
    case Semicolon => true
  }

  predicate LexicalTail(t: Tail) {
    match t
    case Nothing => true
    case OpenQuote(q, body) => IsQuote(q) && q !in body
    case OpenRemark(body) => '\n' !in body
  }

  /** A dash is not followed by another one, which would make a remark of it. */
  predicate WellFormed(xs: seq<Lexeme>, t: Tail) {
    if xs == [] then LexicalTail(t)
    else Lexical(xs[0]) && WellFormed(xs[1..], t) && (xs[0] == Plain('-') ==> !NextDash(Render(xs[1..], t)))
  }

  /** What stays of a lexeme: a remark leaves its line end. */
  function Kept(x: Lexeme): string {
    if x.Remark? then "\n" else Spelled(x)
  }

  function KeptTail(t: Tail): string {
    if t.OpenQuote? then SpelledTail(t) else ""
  }

  /** The text between the semicolons, when b is the beginning of the first piece. */
  function Pieces(xs: seq<Lexeme>, t: Tail, b: string): seq<string> {
    if xs == [] then [b + KeptTail(t)]
    else if xs[0].Semicolon? then [b] + Pieces(xs[1..], t, "")
    else Pieces(xs[1..], t, b + Kept(xs[0]))
  }

  /** The pieces without outer space, the blank ones left out. */
  function NotBlank(pieces: seq<string>): seq<string> {
    if pieces == [] then []
    else (if TrimSpace(pieces[0]) == "" then [] else [TrimSpace(pieces[0])]) + NotBlank(pieces[1..])
  }

  function QuoteMode(q: char): Mode
    requires IsQuote(q)
  {
    if q == '\'' then Single else Double
  }

  /** Inside quotes everything up to the closing one is copied. */
  lemma {:induction false} ScanQuoted(q: char, body: string, r: string, b: string)
    requires IsQuote(q) && q !in body
    ensures Scan(body + r, QuoteMode(q), b) == Scan(r, QuoteMode(q), b + body)
  {
    hide TrimSpace;
    if body == "" {
      assert body + r == r && b + body == b;
    } else {
      DropAppend(body, r, 1);
      ScanQuoted(q, body[1..], r, b + [body[0]]);
      assert b + [body[0]] + body[1..] == b + body;
    }
  }

  lemma {:induction false} ScanRemark(body: string, r: string, b: string)
    requires '\n' !in body
    ensures Scan(body + r, Comment, b) == Scan(r, Comment, b)
  {
    if body == "" {
      assert body + r == r;
    } else {
      DropAppend(body, r, 1);
      ScanRemark(body[1..], r, b);
    }
  }

  lemma ScanTail(t: Tail, b: string)
    requires LexicalTail(t)
    ensures Scan(SpelledTail(t), Code, b) == Flush(b + KeptTail(t))
  {
    hide TrimSpace, Flush;
    match t
    case Nothing => assert b + "" == b;
    case OpenQuote(q, body) =>
      HeadTail(q, body);
      ScanQuoted(q, body, "", b + [q]);
      assert body + "" == body;
      Assoc(b, [q], body);
    case OpenRemark(body) =>
      ScanRemark(body, "", b);
      assert body + "" == body && ("--" + body)[2..] == body;
      assert b + "" == b;
  }

  lemma ScanQuotation(q: char, body: string, r: string, b: string)
    requires IsQuote(q) && q !in body
    ensures Scan(Spelled(Quoted(q, body)) + r, Code, b) == Scan(r, Code, b + Spelled(Quoted(q, body)))
  {
    hide TrimSpace;
    var rest := body + ([q] + r);
    assert Spelled(Quoted(q, body)) + r == [q] + rest;
    HeadTail(q, rest);
    ScanQuoted(q, body, [q] + r, b + [q]);
    HeadTail(q, r);
    assert b + [q] + body + [q] == b + Spelled(Quoted(q, body));
  }

  lemma ScanWholeRemark(body: string, r: string, b: string)
    requires '\n' !in body
    ensures Scan(Spelled(Remark(body)) + r, Code, b) == Scan(r, Code, b + "\n")
  {
    hide TrimSpace;
    var rest := body + ("\n" + r);
    assert Spelled(Remark(body)) + r == "--" + rest;
    Cut("--", rest);
    ScanRemark(body, "\n" + r, b);
    HeadTail('\n', r);
  }

  lemma ScanLexeme(x: Lexeme, r: string, b: string)
    requires Lexical(x) && !x.Semicolon? && (x == Plain('-') ==> !NextDash(r))
    ensures Scan(Spelled(x) + r, Code, b) == Scan(r, Code, b + Kept(x))
  {
    hide TrimSpace;
    match x
    case Plain(c) => HeadTail(c, r);
    case Quoted(q, body) =>
      hide Scan;
      ScanQuotation(q, body, r, b);
    case Remark(body) =>
      hide Scan;
      ScanWholeRemark(body, r, b);
  }

  /** The scanner, from any statement begun, yields the trimmed pieces that are not blank. */
  lemma {:induction false} ScanPieces(xs: seq<Lexeme>, t: Tail, b: string)
    requires WellFormed(xs, t)
    ensures Scan(Render(xs, t), Code, b) == NotBlank(Pieces(xs, t, b))
  {
    hide TrimSpace, Lexical;
    if xs == [] {
      ScanTail(t, b);
      assert [b + KeptTail(t)][1..] == [];
    } else if xs[0].Semicolon? {
      var rest := Render(xs[1..], t);
      HeadTail(';', rest);
      ScanPieces(xs[1..], t, "");
      assert ([b] + Pieces(xs[1..], t, ""))[1..] == Pieces(xs[1..], t, "");
    } else {
      ScanLexeme(xs[0], Render(xs[1..], t), b);
      ScanPieces(xs[1..], t, b + Kept(xs[0]));
    }
  }

  /** Splitting a text yields what stands between its semicolons, quotes kept and remarks dropped. */
  lemma SplitsBySemicolons(xs: seq<Lexeme>, t: Tail)
    requires WellFormed(xs, t)
    ensures SplitStatements(Render(xs, t)) == NotBlank(Pieces(xs, t, ""))
  {
    ScanPieces(xs, t, "");
  }

  // ---- Every text has lexemes ----------------------------------------------

  lemma {:induction false} CutAt(s: string, c: char) returns (body: string, rest: string)
    ensures c !in body
    ensures s == body || s == body + [c] + rest
    ensures s != body ==> |rest| < |s|
  {
    if s == "" {
      return "", "";
    }
    if s[0] == c {
      assert s == "" + [c] + s[1..];
      return "", s[1..];
    }
    var tail;
    tail, rest := CutAt(s[1..], c);
    body := [s[0]] + tail;
    if s[1..] == tail {
      assert s == body;
    } else {
      assert s == body + [c] + rest;
    }
  }

  lemma RemarkCut(s: string, body: string, rest: string)
    requires StartsComment(s)
    ensures s[2..] == body ==> s == SpelledTail(OpenRemark(body))
    ensures s[2..] == body + ['\n'] + rest ==> s == Spelled(Remark(body)) + rest
  {
    assert s == "--" + s[2..];
    Assoc("--", body + ['\n'], rest);
    Assoc("--", body, ['\n']);
  }

  lemma QuoteCut(s: string, body: string, rest: string)
    requires s != ""
    ensures s[1..] == body ==> s == SpelledTail(OpenQuote(s[0], body))
    ensures s[1..] == body + [s[0]] + rest ==> s == Spelled(Quoted(s[0], body)) + rest
  {
    assert s == [s[0]] + s[1..];
    Assoc([s[0]], body + [s[0]], rest);
    Assoc([s[0]], body, [s[0]]);
  }

  lemma Prepended(x: Lexeme, xs: seq<Lexeme>, t: Tail)
    requires WellFormed(xs, t) && Lexical(x) && (x == Plain('-') ==> !NextDash(Render(xs, t)))
    ensures WellFormed([x] + xs, t) && Render([x] + xs, t) == Spelled(x) + Render(xs, t)
  {
    assert ([x] + xs)[0] == x && ([x] + xs)[1..] == xs;
    hide Lexical, Spelled;
  }

  /** A well-formed reading for every text. */
  lemma {:induction false} EveryTextLexes(s: string) returns (xs: seq<Lexeme>, t: Tail)
    ensures WellFormed(xs, t) && Render(xs, t) == s
    decreases |s|
  {
    if s == "" {
      return [], Nothing;
    }
    var x, rest := Plain(s[0]), s[1..];
    if StartsComment(s) {
      var body;
      body, rest := CutAt(s[2..], '\n');
      RemarkCut(s, body, rest);
      if s[2..] == body {
        return [], OpenRemark(body);
      }
      x := Remark(body);
    } else if IsQuote(s[0]) {
      var body;
      body, rest := CutAt(s[1..], s[0]);
      QuoteCut(s, body, rest);
      if s[1..] == body {
        return [], OpenQuote(s[0], body);
      }
      x := Quoted(s[0], body);
    } else {
      assert s == [s[0]] + s[1..];
      if s[0] == ';' {
        x := Semicolon;
      }
    }
    assert s == Spelled(x) + rest && Lexical(x);
    hide Spelled, IsQuote;
    var ys;
    ys, t := EveryTextLexes(rest);
    xs := [x] + ys;
    Prepended(x, ys, t);
  }
}
