/** JSON with comments (electron/main/json-with-comments.ts): comments become white space, and nothing else changes. */
module JsonComments {

  const BOM: char := '\U{FEFF}'

  // ---- the text as pieces ----------------------------------------------------------------------------------------

  /** A string literal after its opening quote, a comment with its delimiters, or one character outside both. */
  datatype Piece = Str(body: string) | LineComment(text: string) | BlockComment(text: string) | Plain(c: char)

  /** The length of a string literal's body, its closing quote included; a backslash takes the next character with it. */
  function StrLen(t: string): (n: nat)
    ensures n <= |t| && (t != [] ==> n > 0)
  {
    if t == [] then 0
    else if t[0] == '\\' && |t| > 1 then 2 + StrLen(t[2..])
    else if t[0] == '"' then 1 else 1 + StrLen(t[1..])
  }

  predicate Closed(t: string) {
    t != [] && if t[0] == '\\' && |t| > 1 then Closed(t[2..]) else t[0] == '"' || Closed(t[1..])
  }

  /** Up to the end of the line, or of the text. */
  function LineLen(t: string): (n: nat)
    ensures n <= |t| && (n < |t| ==> t[n] == '\n') && forall i :: 0 <= i < n ==> t[i] != '\n'
  {
    if t == [] || t[0] == '\n' then 0 else 1 + LineLen(t[1..])
  }

  /** Past the first end of a block comment, or to the end of the text. */
  function BlockLen(t: string): (n: nat)
    ensures n <= |t|
  {
    if t == [] then 0 else if t[0] == '*' && |t| > 1 && t[1] == '/' then 2 else 1 + BlockLen(t[1..])
  }

  predicate Opens(t: string, second: char) { |t| > 1 && t[0] == '/' && t[1] == second }

  function FirstPiece(t: string): Piece
    requires t != []
  {
    if t[0] == '"' then Str(t[1..1 + StrLen(t[1..])])
    else if Opens(t, '/') then LineComment(t[..LineLen(t)])
    else if Opens(t, '*') then BlockComment(t[..2 + BlockLen(t[2..])])
    else Plain(t[0])
  }

  function Source(p: Piece): string {
    match p
    case Str(body) => ['"'] + body
    case LineComment(text) => text
    case BlockComment(text) => text
    case Plain(c) => [c]
  }

  /** The pieces of a text, left to right. */
  function Scan(t: string): seq<Piece> {
    if t == [] then []
    else
      var p := FirstPiece(t);
      assert 0 < |Source(p)| <= |t| by { FirstPieceIsAPrefix(t); }
      [p] + Scan(t[|Source(p)|..])
  }

  lemma FirstPieceIsAPrefix(t: string)
    requires t != []
    ensures 0 < |Source(FirstPiece(t))| <= |t| && Source(FirstPiece(t)) == t[..|Source(FirstPiece(t))|]
  {
    if t[0] == '"' { assert ['"'] + t[1..1 + StrLen(t[1..])] == t[..1 + StrLen(t[1..])]; }
  }

  function SourceAll(ps: seq<Piece>): string { if ps == [] then [] else Source(ps[0]) + SourceAll(ps[1..]) }

  /** The pieces are the text: nothing is left out and nothing overlaps. */
  lemma {:induction false} PiecesAreTheText(t: string)
    ensures SourceAll(Scan(t)) == t
    decreases |t|
  {
    if t != [] {
      FirstPieceIsAPrefix(t);
      var n := |Source(FirstPiece(t))|;
      PiecesAreTheText(t[n..]);
      assert t == t[..n] + t[n..];
    }
  }

  // ---- stripping -------------------------------------------------------------------------------------------------

  function Blanks(text: string): (out: string)
    ensures |out| == |text|
  {
    if text == [] then [] else [if text[0] == '\n' then '\n' else ' '] + Blanks(text[1..])
  }

  function Render(p: Piece): string {
    match p
    case LineComment(_) => []
    case BlockComment(text) => Blanks(text)
    case _ => Source(p)
  }

  function RenderAll(ps: seq<Piece>): string { if ps == [] then [] else Render(ps[0]) + RenderAll(ps[1..]) }

  function WithoutBom(text: string): string { if text != [] && text[0] == BOM then text[1..] else text }

  function Strip(text: string): string { RenderAll(Scan(WithoutBom(text))) }

  /** What is still to come: the rest of an open string first. */
  function Pending(t: string, inString: bool): string {
    if inString then t[..StrLen(t)] + RenderAll(Scan(t[StrLen(t)..])) else RenderAll(Scan(t))
  }

  lemma NextPiece(t: string)
    requires t != []
    ensures var p := FirstPiece(t); 0 < |Source(p)| <= |t| && Pending(t, false) == Render(p) + Pending(t[|Source(p)|..], false)
  {
    FirstPieceIsAPrefix(t);
  }

  lemma PendingString(t: string)
    ensures Pending(t, true) == t[..StrLen(t)] + Pending(t[StrLen(t)..], false)
  {
  }

  lemma Reassociate(a: string, b: string, c: string)
    ensures a + (b + c) == (a + b) + c
  {
  }

  lemma StringOpens(t: string, u: string)
    requires t != [] && t[0] == '"' && u == t[1..]
    ensures Pending(t, false) == ['"'] + Pending(u, true)
  {
    var n := StrLen(u);
    StringPiece(t, u);
    NextPiece(t);
    PendingString(u);
    Reassociate(['"'], u[..n], Pending(u[n..], false));
  }

  lemma StringPiece(t: string, u: string)
    requires t != [] && t[0] == '"' && u == t[1..]
    ensures var p := FirstPiece(t); Source(p) == ['"'] + u[..StrLen(u)] && Render(p) == Source(p)
    ensures t[|Source(FirstPiece(t))|..] == u[StrLen(u)..]
  {
    assert t[1..1 + StrLen(u)] == u[..StrLen(u)];
    assert t[1 + StrLen(u)..] == u[StrLen(u)..];
  }

  lemma StringSplits(t: string, k: nat, n: nat)
    requires k + n <= |t|
    ensures t[..k + n] == t[..k] + t[k..][..n] && t[k..][n..] == t[k + n..]
  {
  }

  /** The next `k` characters of a string, and the rest of it. */
  lemma StringContinues(t: string, k: nat, u: string)
    requires k <= |t| && u == t[k..] && StrLen(t) == k + StrLen(u)
    ensures Pending(t, true) == t[..k] + Pending(u, true)
  {
    var n := StrLen(u);
    StringSplits(t, k, n);
    PendingString(t);
    PendingString(u);
    Reassociate(t[..k], u[..n], Pending(u[n..], false));
  }

  lemma StringCloses(t: string)
    requires t != [] && t[0] == '"'
    ensures Pending(t, true) == t[..1] + Pending(t[1..], false)
  {
    PendingString(t);
  }

  /** text.slice(from, to) with everything but newlines blanked. */
  method BlankOut(text: string) returns (out: string)
    ensures out == Blanks(text)
  {
    out := [];
    var i := 0;
    while i < |text|
      invariant i <= |text| && out + Blanks(text[i..]) == Blanks(text)
    {
      var blank := if text[i] == '\n' then '\n' else ' ';
      BlanksMore(text, i, blank);
      Reassociate(out, [blank], Blanks(text[i + 1..]));
      out := out + [blank];
      i := i + 1;
    }
    assert text[i..] == [];
  }

  lemma BlanksMore(text: string, i: nat, blank: char)
    requires i < |text| && blank == if text[i] == '\n' then '\n' else ' '
    ensures Blanks(text[i..]) == [blank] + Blanks(text[i + 1..])
  {
    assert text[i..][1..] == text[i + 1..];
  }

  /** The position of the first `*` `/` at or after `from`, or the length of the text. */
  method FindBlockEnd(text: string, from: nat) returns (stop: nat)
    requires from <= |text|
    ensures from <= stop <= |text| && stop == from + BlockLen(text[from..])
  {
    stop := from;
    while stop < |text|
      invariant from <= stop <= |text| && stop + BlockLen(text[stop..]) == from + BlockLen(text[from..])
    {
      if text[stop] == '*' && stop + 1 < |text| && text[stop + 1] == '/' { return stop + 2; }
      assert text[stop..][1..] == text[stop + 1..];
      stop := stop + 1;
    }
  }

  method FindLineEnd(text: string, from: nat) returns (stop: nat)
    requires from <= |text|
    ensures from <= stop <= |text| && stop == from + LineLen(text[from..])
  {
    stop := from;
    while stop < |text| && text[stop] != '\n'
      invariant from <= stop <= |text| && stop + LineLen(text[stop..]) == from + LineLen(text[from..])
    {
      assert text[stop..][1..] == text[stop + 1..];
      stop := stop + 1;
    }
  }

  /** One character or pair inside a string. */
  method InsideString(text: string, index: nat) returns (piece: string, stop: nat, inString: bool)
    requires index < |text|
    ensures index < stop <= |text| && Pending(text[index..], true) == piece + Pending(text[stop..], inString)
  {
    var t := text[index..];
    if text[index] == '\\' && index + 1 < |text| {
      StringContinues(t, 2, text[index + 2..]);
      return t[..2], index + 2, true;
    }
    if text[index] == '"' {
      StringCloses(t);
      assert t[1..] == text[index + 1..];
      return t[..1], index + 1, false;
    }
    StringContinues(t, 1, text[index + 1..]);
    return t[..1], index + 1, true;
  }

  /** A comment ends where its piece ends, and leaves what its piece renders to. */
  method OverComment(text: string, index: nat) returns (piece: string, stop: nat)
    requires index < |text| && (Opens(text[index..], '/') || Opens(text[index..], '*'))
    ensures index < stop <= |text| && stop - index == |Source(FirstPiece(text[index..]))|
    ensures piece == Render(FirstPiece(text[index..]))
  {
    var t := text[index..];
    FirstPieceIsAPrefix(t);
    if Opens(t, '/') {
      stop := FindLineEnd(text, index);
      return [], stop;
    }
    assert t[2..] == text[index + 2..];
    stop := FindBlockEnd(text, index + 2);
    assert t[..stop - index] == text[index..stop];
    piece := BlankOut(text[index..stop]);
  }

  /** What is to come is what the first piece renders to, and then the rest. */
  lemma PieceGoesBy(t: string, u: string)
    requires t != [] && t[0] != '"' && |Source(FirstPiece(t))| <= |t| && u == t[|Source(FirstPiece(t))|..]
    ensures Pending(t, false) == Render(FirstPiece(t)) + Pending(u, false)
  {
    NextPiece(t);
  }

  /** A comment, the opening of a string, or one character. */
  method OutsideString(text: string, index: nat) returns (piece: string, stop: nat, inString: bool)
    requires index < |text|
    ensures index < stop <= |text| && Pending(text[index..], false) == piece + Pending(text[stop..], inString)
  {
    var t := text[index..];
    if text[index] == '"' {
      StringOpens(t, text[index + 1..]);
      return ['"'], index + 1, true;
    }
    inString := false;
    if Opens(t, '/') || Opens(t, '*') {
      piece, stop := OverComment(text, index);
    } else {
      piece, stop := [text[index]], index + 1;
    }
    PieceGoesBy(t, text[stop..]);
  }

  /** stripJsonComments: one pass over the characters. */
  method StripJsonComments(text: string) returns (out: string)
    ensures out == Strip(text)
  {
    out := [];
    var index := if text != [] && text[0] == BOM then 1 else 0;
    assert text[index..] == WithoutBom(text);
    var inString := false;
    ghost var rest := Pending(text[index..], inString);
    while index < |text|
      invariant index <= |text| && rest == Pending(text[index..], inString) && out + rest == Strip(text)
    {
      var piece: string;
      if inString {
        piece, index, inString := InsideString(text, index);
      } else {
        piece, index, inString := OutsideString(text, index);
      }
      rest := Pending(text[index..], inString);
      Reassociate(out, piece, rest);
      out := out + piece;
    }
    assert text[index..] == [];
  }

  // ---- what stripping keeps --------------------------------------------------------------------------------------

  function Newlines(t: string): nat { if t == [] then 0 else (if t[0] == '\n' then 1 else 0) + Newlines(t[1..]) }

  lemma {:induction false} NewlinesAdd(a: string, b: string)
    ensures Newlines(a + b) == Newlines(a) + Newlines(b)
  {
    if a == [] {
      assert a + b == b;
    } else {
      NewlinesAdd(a[1..], b);
      assert (a + b)[1..] == a[1..] + b;
    }
  }

  lemma {:induction false} BlanksKeepNewlines(t: string)
    ensures Newlines(Blanks(t)) == Newlines(t)
  {
    if t != [] {
      BlanksKeepNewlines(t[1..]);
      assert Blanks(t)[1..] == Blanks(t[1..]);
    }
  }

  lemma {:induction false} NoNewlines(t: string)
    requires forall i :: 0 <= i < |t| ==> t[i] != '\n'
    ensures Newlines(t) == 0
  {
    if t != [] { NoNewlines(t[1..]); }
  }

  lemma RenderKeepsNewlines(t: string)
    requires t != []
    ensures Newlines(Render(FirstPiece(t))) == Newlines(Source(FirstPiece(t)))
  {
    var p := FirstPiece(t);
    match p
    case BlockComment(text) => BlanksKeepNewlines(text);
    case LineComment(text) => NoNewlines(text);
    case _ =>
  }

  lemma {:induction false} RenderingKeepsNewlines(t: string)
    ensures Newlines(RenderAll(Scan(t))) == Newlines(t)
    decreases |t|
  {
    if t != [] {
      FirstPieceIsAPrefix(t);
      var p := FirstPiece(t);
      var rest := t[|Source(p)|..];
      RenderingKeepsNewlines(rest);
      PieceKeepsNewlines(t, p, rest);
      ScanMore(t, p, rest);
      RenderMore(p, Scan(rest));
    }
  }

  lemma PieceKeepsNewlines(t: string, p: Piece, rest: string)
    requires t != [] && p == FirstPiece(t) && |Source(p)| <= |t| && rest == t[|Source(p)|..]
    requires Newlines(RenderAll(Scan(rest))) == Newlines(rest)
    ensures Newlines(Render(p) + RenderAll(Scan(rest))) == Newlines(t)
  {
    FirstPieceIsAPrefix(t);
    RenderKeepsNewlines(t);
    NewlinesAdd(Render(p), RenderAll(Scan(rest)));
    NewlinesAdd(Source(p), rest);
    assert t == Source(p) + rest;
  }

  lemma RenderMore(p: Piece, rest: seq<Piece>)
    ensures RenderAll([p] + rest) == Render(p) + RenderAll(rest)
  {
    assert ([p] + rest)[1..] == rest;
  }

  /** A parse error still points at the right line. */
  lemma StrippingKeepsLines(text: string)
    ensures Newlines(Strip(text)) == Newlines(text)
  {
    RenderingKeepsNewlines(WithoutBom(text));
  }

  // ---- reading the output again ------------------------------------------------------------------------------------

  function PlainAll(t: string): seq<Piece> { if t == [] then [] else [Plain(t[0])] + PlainAll(t[1..]) }

  function Cleaned(p: Piece): seq<Piece> {
    match p
    case LineComment(_) => []
    case BlockComment(text) => PlainAll(Blanks(text))
    case _ => [p]
  }

  function CleanedAll(ps: seq<Piece>): seq<Piece> { if ps == [] then [] else Cleaned(ps[0]) + CleanedAll(ps[1..]) }

  /** A closed string is read the same whatever follows it. */
  lemma {:induction false} ClosedStringsStay(body: string, rest: string)
    requires Closed(body) && StrLen(body) == |body|
    ensures StrLen(body + rest) == |body|
    decreases |body|
  {
    var t := body + rest;
    if body[0] == '\\' && |body| > 1 {
      ClosedStringsStay(body[2..], rest);
      assert t[2..] == body[2..] + rest;
    } else if body[0] != '"' {
      ClosedStringsStay(body[1..], rest);
      assert t[1..] == body[1..] + rest;
    }
  }

  /** The body of a string is closed, or it is all that is left. */
  lemma {:induction false} StringBodies(t: string)
    ensures var n := StrLen(t); StrLen(t[..n]) == n && (Closed(t[..n]) || n == |t|)
    decreases |t|
  {
    if t != [] {
      var n := StrLen(t);
      if t[0] == '\\' && |t| > 1 {
        StringBodies(t[2..]);
        assert t[..n][2..] == t[2..][..n - 2];
      } else if t[0] != '"' {
        StringBodies(t[1..]);
        assert t[..n][1..] == t[1..][..n - 1];
        assert t[..n][0] == t[0];
      }
    }
  }

  lemma ScanMore(t: string, p: Piece, rest: string)
    requires t != [] && p == FirstPiece(t) && |Source(p)| <= |t| && rest == t[|Source(p)|..]
    ensures Scan(t) == [p] + Scan(rest)
  {
  }

  /** The pieces of a text, without saying how they were found. */
  ghost predicate PiecesOf(t: string, ps: seq<Piece>)
    decreases |ps|
  {
    if ps == [] then t == []
    else t != [] && ps[0] == FirstPiece(t) && 0 < |Source(ps[0])| <= |t| && PiecesOf(t[|Source(ps[0])|..], ps[1..])
  }

  lemma {:induction false} ScanMakesPieces(t: string)
    ensures PiecesOf(t, Scan(t))
    decreases |t|
  {
    if t != [] {
      FirstPieceIsAPrefix(t);
      var p := FirstPiece(t);
      ScanMakesPieces(t[|Source(p)|..]);
      ScanMore(t, p, t[|Source(p)|..]);
      assert Scan(t)[1..] == Scan(t[|Source(p)|..]);
    }
  }

  lemma {:induction false} PiecesAreScanned(t: string, ps: seq<Piece>)
    requires PiecesOf(t, ps)
    ensures ps == Scan(t)
    decreases |ps|
  {
    if ps != [] {
      PiecesAreScanned(t[|Source(ps[0])|..], ps[1..]);
      ScanMore(t, ps[0], t[|Source(ps[0])|..]);
      assert ps == [ps[0]] + ps[1..];
    }
  }

  lemma OnePlain(c: char, t: string, ps: seq<Piece>)
    requires c != '"' && c != '/' && PiecesOf(t, ps)
    ensures PiecesOf([c] + t, [Plain(c)] + ps)
  {
    assert ([c] + t)[1..] == t && ([Plain(c)] + ps)[1..] == ps;
  }

  lemma SamePieces(t: string, u: string, ps: seq<Piece>, qs: seq<Piece>)
    requires PiecesOf(t, ps) && t == u && ps == qs
    ensures PiecesOf(u, qs)
  {
  }

  lemma SplitFirst<T>(x: T, s: seq<T>, t: seq<T>, r: seq<T>)
    requires s == [x] + t
    ensures s + r == [x] + (t + r)
  {
  }

  lemma OneBlank(c: char, t: string, qs: seq<Piece>, u: string, rs: seq<Piece>)
    requires (c == ' ' || c == '\n') && PiecesOf(t, qs) && u == [c] + t && rs == [Plain(c)] + qs
    ensures PiecesOf(u, rs)
  {
    OnePlain(c, t, qs);
  }

  lemma {:induction false} BlanksArePieces(blanks: string, rest: string, ps: seq<Piece>)
    requires forall i :: 0 <= i < |blanks| ==> blanks[i] == ' ' || blanks[i] == '\n'
    requires PiecesOf(rest, ps)
    ensures PiecesOf(blanks + rest, PlainAll(blanks) + ps)
  {
    if blanks == [] {
      SamePieces(rest, blanks + rest, ps, PlainAll(blanks) + ps);
    } else {
      BlanksArePieces(blanks[1..], rest, ps);
      SplitFirst(blanks[0], blanks, blanks[1..], rest);
      SplitFirst(Plain(blanks[0]), PlainAll(blanks), PlainAll(blanks[1..]), ps);
      OneBlank(blanks[0], blanks[1..] + rest, PlainAll(blanks[1..]) + ps, blanks + rest, PlainAll(blanks) + ps);
    }
  }

  lemma BlanksScanPlain(blanks: string, rest: string, tail: seq<Piece>)
    requires forall i :: 0 <= i < |blanks| ==> blanks[i] == ' ' || blanks[i] == '\n'
    requires tail == Scan(rest)
    ensures Scan(blanks + rest) == PlainAll(blanks) + tail
  {
    ScanMakesPieces(rest);
    BlanksArePieces(blanks, rest, tail);
    PiecesAreScanned(blanks + rest, PlainAll(blanks) + tail);
  }

  lemma {:induction false} BlanksAreBlank(t: string)
    ensures forall i :: 0 <= i < |Blanks(t)| ==> Blanks(t)[i] == ' ' || Blanks(t)[i] == '\n'
  {
    if t != [] { BlanksAreBlank(t[1..]); }
  }

  /** The first character stays first, unless a comment began there. */
  lemma FirstCharacterStays(t: string)
    requires t != [] && t[0] != '/'
    ensures var out := RenderAll(Scan(t)); out != [] && out[0] == t[0]
  {
  }

  lemma PlainStays(t: string, rest: string)
    requires t != [] && FirstPiece(t).Plain? && (rest == [] || (|t| > 1 && (rest[0] == t[1] || t[0] != '/')) || t[0] != '/')
    ensures Scan([t[0]] + rest) == [Plain(t[0])] + Scan(rest)
  {
    var u := [t[0]] + rest;
    assert u[1..] == rest;
  }

  lemma StringStays(t: string, rest: string)
    requires t != [] && FirstPiece(t).Str? && (Closed(FirstPiece(t).body) || rest == [])
    ensures Scan(Source(FirstPiece(t)) + rest) == [FirstPiece(t)] + Scan(rest)
  {
    var body := FirstPiece(t).body;
    StringBodies(t[1..]);
    assert body == t[1..][..StrLen(t[1..])];
    var u := Source(FirstPiece(t)) + rest;
    assert u[1..] == body + rest;
    if Closed(body) { ClosedStringsStay(body, rest); } else { assert u[1..] == body; }
    assert u[1..1 + |body|] == body && u[1 + |body|..] == rest;
  }

  lemma FirstStays(t: string, rest: string)
    requires t != [] && rest == RenderAll(Scan(t[|Source(FirstPiece(t))|..]))
    ensures Scan(Render(FirstPiece(t)) + rest) == Cleaned(FirstPiece(t)) + Scan(rest)
  {
    var p := FirstPiece(t);
    FirstPieceIsAPrefix(t);
    match p
    case Str(body) =>
      StringBodies(t[1..]);
      assert body == t[1..][..StrLen(t[1..])];
      StringStays(t, rest);
    case LineComment(_) => assert [] + rest == rest;
    case BlockComment(text) =>
      BlanksAreBlank(text);
      BlanksScanPlain(Blanks(text), rest, Scan(rest));
    case Plain(c) =>
      if c == '/' && |t| > 1 { FirstCharacterStays(t[1..]); }
      PlainStays(t, rest);
  }

  /** The output is read as the same strings and characters, with white space for what was a comment. */
  lemma {:induction false} OutputIsReadClean(t: string)
    ensures Scan(RenderAll(Scan(t))) == CleanedAll(Scan(t))
    decreases |t|
  {
    if t != [] {
      FirstPieceIsAPrefix(t);
      var rest := t[|Source(FirstPiece(t))|..];
      OutputIsReadClean(rest);
      FirstStays(t, RenderAll(Scan(rest)));
    }
  }

  /** The strings of a text and the characters outside strings and comments that are not blank, each with its line. */
  function Marks(ps: seq<Piece>, line: nat): seq<(nat, Piece)> {
    if ps == [] then []
    else
      var next := Marks(ps[1..], line + Newlines(Source(ps[0])));
      if ps[0].Str? || (ps[0].Plain? && ps[0].c != ' ' && ps[0].c != '\n') then [(line, ps[0])] + next else next
  }

  lemma {:induction false} BlanksMarkNothing(blanks: string, rest: seq<Piece>, line: nat)
    requires forall i :: 0 <= i < |blanks| ==> blanks[i] == ' ' || blanks[i] == '\n'
    ensures Marks(PlainAll(blanks) + rest, line) == Marks(rest, line + Newlines(blanks))
  {
    if blanks == [] {
      assert PlainAll(blanks) + rest == rest;
    } else {
      var ps := PlainAll(blanks) + rest;
      assert ps[1..] == PlainAll(blanks[1..]) + rest;
      BlanksMarkNothing(blanks[1..], rest, line + Newlines(Source(ps[0])));
      assert Newlines(Source(ps[0])) == if blanks[0] == '\n' then 1 else 0 by { assert Source(ps[0])[1..] == []; }
    }
  }

  lemma MarksMore(p: Piece, rest: seq<Piece>, line: nat)
    ensures Marks([p] + rest, line) ==
      (if p.Str? || (p.Plain? && p.c != ' ' && p.c != '\n') then [(line, p)] else [])
      + Marks(rest, line + Newlines(Source(p)))
  {
    assert ([p] + rest)[1..] == rest;
  }

  lemma CleanedMarks(t: string, clean: seq<Piece>, line: nat)
    requires t != []
    ensures Marks(Cleaned(FirstPiece(t)) + clean, line) ==
      (if FirstPiece(t).Str? || (FirstPiece(t).Plain? && FirstPiece(t).c != ' ' && FirstPiece(t).c != '\n')
       then [(line, FirstPiece(t))] else [])
      + Marks(clean, line + Newlines(Source(FirstPiece(t))))
  {
    var p := FirstPiece(t);
    RenderKeepsNewlines(t);
    match p
    case LineComment(_) => assert Cleaned(p) + clean == clean;
    case BlockComment(text) => BlanksLeaveMarks(text, clean, line);
    case _ => MarksMore(p, clean, line);
  }

  lemma BlanksLeaveMarks(text: string, clean: seq<Piece>, line: nat)
    ensures Marks(PlainAll(Blanks(text)) + clean, line) == Marks(clean, line + Newlines(Blanks(text)))
  {
    BlanksAreBlank(text);
    BlanksMarkNothing(Blanks(text), clean, line);
  }

  lemma MarksStep(t: string, rest: seq<Piece>, clean: seq<Piece>, line: nat)
    requires t != [] && Marks(clean, line + Newlines(Source(FirstPiece(t)))) == Marks(rest, line + Newlines(Source(FirstPiece(t))))
    ensures Marks(Cleaned(FirstPiece(t)) + clean, line) == Marks([FirstPiece(t)] + rest, line)
  {
    CleanedMarks(t, clean, line);
    MarksMore(FirstPiece(t), rest, line);
  }

  lemma {:induction false} CleaningKeepsMarks(t: string, ps: seq<Piece>, line: nat)
    requires PiecesOf(t, ps)
    ensures Marks(CleanedAll(ps), line) == Marks(ps, line)
    decreases |ps|
  {
    if ps != [] {
      FirstOfPieces(t, ps);
      var rest, later := ps[1..], line + Newlines(Source(ps[0]));
      CleaningKeepsMarks(t[|Source(ps[0])|..], rest, later);
      CleaningMore(t, rest, line, later);
    }
  }

  lemma FirstOfPieces(t: string, ps: seq<Piece>)
    requires PiecesOf(t, ps) && ps != []
    ensures t != [] && ps[0] == FirstPiece(t) && 0 < |Source(ps[0])| <= |t| && PiecesOf(t[|Source(ps[0])|..], ps[1..])
    ensures ps == [FirstPiece(t)] + ps[1..]
  {
  }

  lemma CleaningMore(t: string, rest: seq<Piece>, line: nat, later: nat)
    requires t != [] && later == line + Newlines(Source(FirstPiece(t))) && Marks(CleanedAll(rest), later) == Marks(rest, later)
    ensures Marks(CleanedAll([FirstPiece(t)] + rest), line) == Marks([FirstPiece(t)] + rest, line)
  {
    MarksStep(t, rest, CleanedAll(rest), line);
    CleanedMore(FirstPiece(t), rest);
  }

  lemma CleanedMore(p: Piece, rest: seq<Piece>)
    ensures CleanedAll([p] + rest) == Cleaned(p) + CleanedAll(rest)
  {
    assert ([p] + rest)[1..] == rest;
  }

  /** Every string literal, and every other character that is not blank or in a comment, stays, on its line. */
  lemma StringsKeepTheirLines(text: string)
    ensures Marks(Scan(Strip(text)), 0) == Marks(Scan(WithoutBom(text)), 0)
  {
    OutputIsReadClean(WithoutBom(text));
    ScanMakesPieces(WithoutBom(text));
    CleaningKeepsMarks(WithoutBom(text), Scan(WithoutBom(text)), 0);
  }

  // ---- when nothing changes --------------------------------------------------------------------------------------

  ghost predicate NoComment(ps: seq<Piece>) {
    forall i :: 0 <= i < |ps| ==> !ps[i].LineComment? && !ps[i].BlockComment?
  }

  lemma {:induction false} RenderIsShorter(ps: seq<Piece>)
    ensures |RenderAll(ps)| <= |SourceAll(ps)|
    ensures NoComment(ps) ==> RenderAll(ps) == SourceAll(ps)
  {
    if ps != [] { RenderIsShorter(ps[1..]); }
  }

  lemma {:induction false} CommentsChangeTheText(t: string)
    requires !NoComment(Scan(t))
    ensures RenderAll(Scan(t)) != t
    decreases |t|
  {
    FirstPieceIsAPrefix(t);
    var p := FirstPiece(t);
    var n := |Source(p)|;
    var rest := Scan(t[n..]);
    RenderIsShorter(rest);
    PiecesAreTheText(t[n..]);
    match p
    case LineComment(_) =>
    case BlockComment(text) => assert Blanks(text)[0] == ' ' && t[0] == '/';
    case _ =>
      CommentIsLater(p, rest);
      CommentsChangeTheText(t[n..]);
      TailsDiffer(t, n, RenderAll(rest));
  }

  lemma CommentIsLater(p: Piece, rest: seq<Piece>)
    requires !NoComment([p] + rest) && !p.LineComment? && !p.BlockComment?
    ensures !NoComment(rest)
  {
    var ps := [p] + rest;
    var i :| 0 <= i < |ps| && (ps[i].LineComment? || ps[i].BlockComment?);
    assert rest[i - 1] == ps[i];
  }

  lemma TailsDiffer(t: string, n: nat, tail: string)
    requires n <= |t| && tail != t[n..]
    ensures t[..n] + tail != t
  {
    assert (t[..n] + tail)[n..] == tail;
  }

  /** Stripping leaves a text exactly as it is if and only if it has no byte-order mark in front and no comment. */
  lemma IdentityExactlyWithoutComments(text: string)
    ensures Strip(text) == text <==> (text == [] || text[0] != BOM) && NoComment(Scan(text))
  {
    var t := WithoutBom(text);
    PiecesAreTheText(t);
    RenderIsShorter(Scan(t));
    if t == text && !NoComment(Scan(t)) { CommentsChangeTheText(t); }
  }

  lemma {:induction false} CleanHasNoComment(ps: seq<Piece>)
    ensures NoComment(CleanedAll(ps))
  {
    if ps != [] {
      CleanHasNoComment(ps[1..]);
      if ps[0].BlockComment? { PlainHasNoComment(Blanks(ps[0].text)); }
    }
  }

  lemma {:induction false} PlainHasNoComment(t: string)
    ensures NoComment(PlainAll(t))
  {
    if t != [] { PlainHasNoComment(t[1..]); }
  }

  /** Stripping twice is stripping once, if and only if the output does not begin with a byte-order mark. */
  lemma IdempotentExactlyWithoutAMark(text: string)
    ensures Strip(Strip(text)) == Strip(text) <==> Strip(text) == [] || Strip(text)[0] != BOM
  {
    OutputIsReadClean(WithoutBom(text));
    CleanHasNoComment(Scan(WithoutBom(text)));
    IdentityExactlyWithoutComments(Strip(text));
  }

  /** A comment leaves no mark in front: a line comment leaves the end of its line, a block comment a space. */
  lemma CommentsLeaveNoMark(t: string)
    requires t != [] && t[0] == '/'
    ensures var out := RenderAll(Scan(t)); out == [] || out[0] != BOM
  {
    FirstPieceIsAPrefix(t);
    match FirstPiece(t)
    case LineComment(text) =>
      var rest := t[|text|..];
      if rest != [] { FirstCharacterStays(rest); }
      assert [] + RenderAll(Scan(rest)) == RenderAll(Scan(rest));
    case BlockComment(text) => BlanksAreBlank(text);
    case _ =>
  }

  predicate TwoMarks(text: string) { |text| >= 2 && text[0] == BOM && text[1] == BOM }

  /** Stripping twice is stripping once, if and only if the text does not begin with two byte-order marks. */
  lemma IdempotentExactlyWithoutTwoMarks(text: string)
    ensures Strip(Strip(text)) == Strip(text) <==> !TwoMarks(text)
  {
    IdempotentExactlyWithoutAMark(text);
    var t := WithoutBom(text);
    if t != [] {
      if t[0] == '/' { CommentsLeaveNoMark(t); } else { FirstCharacterStays(t); }
    }
  }

  /** Of a text that is nothing but two marks each pass takes one. */
  lemma EachPassTakesAMark(text: string)
    requires text == [BOM, BOM]
    ensures TwoMarks(text) && Strip(text) == [BOM] && Strip(Strip(text)) == []
  {
    var one := [BOM];
    assert WithoutBom(text) == one;
    FirstCharacterStays(one);
    RenderIsShorter(Scan(one));
    PiecesAreTheText(one);
    assert Strip(text) == one;
  }

  // ---- lengths ---------------------------------------------------------------------------------------------------

  /** The characters of line comments among these pieces. */
  function LineComments(ps: seq<Piece>): nat {
    if ps == [] then 0 else (match ps[0] case LineComment(text) => |text| case _ => 0) + LineComments(ps[1..])
  }

  lemma {:induction false} RenderingShortens(ps: seq<Piece>)
    ensures |RenderAll(ps)| + LineComments(ps) == |SourceAll(ps)|
  {
    if ps != [] { RenderingShortens(ps[1..]); }
  }

  /** Stripping takes away the mark in front and the line comments, and not a character more: block comments keep their length. */
  lemma OnlyLineCommentsGo(text: string)
    ensures var t := if text != [] && text[0] == '\U{FEFF}' then text[1..] else text;
      |Strip(text)| + LineComments(Scan(t)) == |t|
  {
    var t := WithoutBom(text);
    RenderingShortens(Scan(t));
    PiecesAreTheText(t);
  }
}
