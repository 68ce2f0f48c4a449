/**
 Comment stripping for devcontainer.json, which may carry // and /* */ comments.

 Three descriptions of the same operation are connected here:
 - `Strip`, the index-driven loop of the program;
 - `Scan`, an automaton that reads one byte at a time;
 - `Lexed`, a grammar that cuts the bytes into string literals, comments and plain bytes.
 */
module JsonComments {

  newtype byte = x: int | 0 <= x < 256

  const QUOTE: byte := 34
  const BACKSLASH: byte := 92
  const SLASH: byte := 47
  const STAR: byte := 42
  const NEWLINE: byte := 10

  // ---------------------------------------------------------------- automaton

  datatype Mode = Code | Slash | Str | Escape | Line | Block | BlockStar

  function Next(m: Mode, b: byte): Mode {
    match m
    case Code => if b == QUOTE then Str else if b == SLASH then Slash else Code
    case Slash => if b == SLASH then Line else if b == STAR then Block else if b == QUOTE then Str else Code
    case Str => if b == QUOTE then Code else if b == BACKSLASH then Escape else Str
    case Escape => Str
    case Line => if b == NEWLINE then Code else Line
    case Block => if b == STAR then BlockStar else Block
    case BlockStar => if b == SLASH then Code else if b == STAR then BlockStar else Block
  }

  function Emit(m: Mode, b: byte): seq<byte> {
    match m
    case Code => if b == SLASH then [] else [b]
    case Slash => if b == SLASH || b == STAR then [] else [SLASH, b]
    case Str => [b]
    case Escape => [b]
    case Line => if b == NEWLINE then [b] else []
    case Block => []
    case BlockStar => []
  }

  /** What is left to write when the input ends in mode m. */
  function Flush(m: Mode): seq<byte> {
    if m == Slash then [SLASH] else []
  }

  function Scan(m: Mode, data: seq<byte>): seq<byte>
    decreases |data|
  {
    if data == [] then Flush(m) else Emit(m, data[0]) + Scan(Next(m, data[0]), data[1..])
  }

  // ------------------------------------------------------------------ grammar

  /**
   A literal is a string of section 7 of RFC 8259 up to its closing quote; `closed` is false for one
   that the input ends inside. A block comment is open in the same sense.
   */
  datatype Token =
    | Literal(body: seq<byte>, closed: bool)
    | LineComment(text: seq<byte>)
    | BlockComment(inner: seq<byte>, ended: bool)
    | Plain(b: byte)

  function Text(t: Token): (s: seq<byte>)
    ensures |s| > 0
  {
    match t
    case Literal(body, closed) => [QUOTE] + Quoted(body, closed)
    case LineComment(text) => [SLASH, SLASH] + text
    case BlockComment(inner, ended) => [SLASH, STAR] + Closing(inner, ended)
    case Plain(b) => [b]
  }

  predicate IsComment(t: Token) {
    t.LineComment? || t.BlockComment?
  }

  /** No unescaped quote; `dangling` tells whether a final lone backslash is allowed. */
  predicate StringBody(s: seq<byte>, dangling: bool) {
    if s == [] then true
    else if s[0] == QUOTE then false
    else if s[0] == BACKSLASH then (if |s| == 1 then dangling else StringBody(s[2..], dangling))
    else StringBody(s[1..], dangling)
  }

  predicate NoTerminator(s: seq<byte>) {
    forall k :: 0 <= k < |s| - 1 ==> !(s[k] == STAR && s[k + 1] == SLASH)
  }

  function Quoted(body: seq<byte>, closed: bool): seq<byte> {
    if closed then body + [QUOTE] else body
  }

  function Closing(inner: seq<byte>, ended: bool): seq<byte> {
    if ended then inner + [STAR, SLASH] else inner
  }

  function Render(ts: seq<Token>): seq<byte> {
    if ts == [] then [] else Text(ts[0]) + Render(ts[1..])
  }

  /** Token t may stand before the bytes `after`. */
  predicate Fits(t: Token, after: seq<byte>) {
    match t
    case Literal(body, closed) => StringBody(body, !closed) && (closed || after == [])
    case LineComment(text) => NEWLINE !in text && (after == [] || after[0] == NEWLINE)
    case BlockComment(inner, ended) => NoTerminator(inner) && (ended || after == [])
    case Plain(b) => b != QUOTE && (b == SLASH ==> after == [] || (after[0] != SLASH && after[0] != STAR))
  }

  predicate Lexed(ts: seq<Token>) {
    ts == [] || (Fits(ts[0], Render(ts[1..])) && Lexed(ts[1..]))
  }

  function WithoutComments(ts: seq<Token>): seq<Token> {
    if ts == [] then []
    else if IsComment(ts[0]) then WithoutComments(ts[1..])
    else [ts[0]] + WithoutComments(ts[1..])
  }

  predicate CommentFree(ts: seq<Token>) {
    forall t :: t in ts ==> !IsComment(t)
  }

  // ------------------------------------------- the automaton against the grammar

  /** One byte of a string literal. */
  lemma ScanInString(m: Mode, b: byte, rest: seq<byte>)
    requires m == Escape || (m == Str && b != QUOTE)
    ensures Scan(m, [b] + rest) == [b] + Scan(Next(m, b), rest)
  {
    assert ([b] + rest)[1..] == rest;
  }

  lemma Prepend(b: byte, body: seq<byte>, closed: bool, after: seq<byte>)
    ensures Quoted([b] + body, closed) + after == [b] + (Quoted(body, closed) + after)
  {
  }

  lemma LiteralEnds(closed: bool, after: seq<byte>)
    requires closed || after == []
    ensures Scan(Str, Quoted([], closed) + after) == Quoted([], closed) + Scan(Code, after)
    ensures !closed ==> Quoted([], closed) + after == [] && Scan(Escape, []) == [] == Quoted([], closed) + Scan(Code, after)
  {
    assert Quoted([], closed) + after == if closed then [QUOTE] + after else [];
    if closed {
      assert ([QUOTE] + after)[1..] == after;
    }
  }

  lemma {:induction false} ScanLiteral(body: seq<byte>, closed: bool, after: seq<byte>)
    requires StringBody(body, !closed) && (closed || after == [])
    ensures Scan(Str, Quoted(body, closed) + after) == Quoted(body, closed) + Scan(Code, after)
    decreases |body|
  {
    hide Scan, Quoted;
    LiteralEnds(closed, after);
    if body != [] {
      var rest := body[1..];
      assert body == [body[0]] + rest;
      Prepend(body[0], rest, closed, after);
      Prepend(body[0], rest, closed, Scan(Code, after));
      ScanInString(Str, body[0], Quoted(rest, closed) + after);
      if body[0] != BACKSLASH {
        ScanLiteral(rest, closed, after);
      } else if rest != [] {
        assert rest == [rest[0]] + body[2..];
        Prepend(rest[0], body[2..], closed, after);
        Prepend(rest[0], body[2..], closed, Scan(Code, after));
        ScanInString(Escape, rest[0], Quoted(body[2..], closed) + after);
        ScanLiteral(body[2..], closed, after);
      }
    }
  }

  lemma {:induction false} ScanLineComment(text: seq<byte>, after: seq<byte>)
    requires NEWLINE !in text && (after == [] || after[0] == NEWLINE)
    ensures Scan(Line, text + after) == Scan(Code, after)
    decreases |text|
  {
    if text == [] {
      assert text + after == after;
    } else {
      assert (text + after)[1..] == text[1..] + after;
      ScanLineComment(text[1..], after);
    }
  }

  /** One byte of a block comment. */
  lemma ScanInBlock(m: Mode, b: byte, rest: seq<byte>)
    requires m == Block || m == BlockStar
    ensures Scan(m, [b] + rest) == Scan(Next(m, b), rest)
  {
    assert ([b] + rest)[1..] == rest;
    assert Emit(m, b) == [];
  }

  lemma BlockEnds(m: Mode, ended: bool, after: seq<byte>)
    requires (m == Block || m == BlockStar) && (ended || after == [])
    ensures Scan(m, Closing([], ended) + after) == Scan(Code, after)
  {
    if ended {
      assert Closing([], ended) + after == [STAR] + ([SLASH] + after);
      ScanInBlock(m, STAR, [SLASH] + after);
      ScanInBlock(BlockStar, SLASH, after);
    } else {
      assert Closing([], ended) + after == [];
    }
  }

  lemma {:induction false} ScanBlockComment(m: Mode, inner: seq<byte>, ended: bool, after: seq<byte>)
    requires m == Block || m == BlockStar
    requires NoTerminator(inner) && (ended || after == [])
    requires m == BlockStar && inner != [] ==> inner[0] != SLASH
    ensures Scan(m, Closing(inner, ended) + after) == Scan(Code, after)
    decreases |inner|
  {
    hide Scan;
    if inner == [] {
      BlockEnds(m, ended, after);
    } else {
      var rest := inner[1..];
      assert Closing(inner, ended) + after == [inner[0]] + (Closing(rest, ended) + after);
      assert forall k :: 0 <= k < |rest| ==> rest[k] == inner[k + 1];
      ScanInBlock(m, inner[0], Closing(rest, ended) + after);
      ScanBlockComment(Next(m, inner[0]), rest, ended, after);
    }
  }

  lemma ScanPlain(b: byte, after: seq<byte>)
    requires Fits(Plain(b), after)
    ensures Scan(Code, [b] + after) == [b] + Scan(Code, after)
  {
    assert ([b] + after)[1..] == after;
    if b == SLASH && after != [] {
      // The automaton held the slash back for one byte; it is written together with that byte.
      var c := after[0];
      assert Emit(Slash, c) == [SLASH] + Emit(Code, c);
      assert Next(Slash, c) == Next(Code, c);
    }
  }

  lemma ScanOpenLiteral(body: seq<byte>, closed: bool, after: seq<byte>)
    requires Fits(Literal(body, closed), after)
    ensures Scan(Code, Text(Literal(body, closed)) + after) == Text(Literal(body, closed)) + Scan(Code, after)
  {
    ScanLiteral(body, closed, after);
    var rest := Quoted(body, closed) + after;
    assert Text(Literal(body, closed)) + after == [QUOTE] + rest;
    assert ([QUOTE] + rest)[1..] == rest;
  }

  lemma OpenComment(opener: byte, rest: seq<byte>)
    requires opener == SLASH || opener == STAR
    ensures Scan(Code, [SLASH, opener] + rest) == Scan(if opener == SLASH then Line else Block, rest)
  {
    var all := [SLASH, opener] + rest;
    assert all[1..] == [opener] + rest && ([opener] + rest)[1..] == rest;
  }

  lemma ScanComment(t: Token, after: seq<byte>)
    requires IsComment(t) && Fits(t, after)
    ensures Scan(Code, Text(t) + after) == Scan(Code, after)
  {
    hide Scan;
    var opener := if t.LineComment? then SLASH else STAR;
    var body := if t.LineComment? then t.text else Closing(t.inner, t.ended);
    assert Text(t) + after == [SLASH, opener] + (body + after);
    OpenComment(opener, body + after);
    if t.LineComment? {
      ScanLineComment(t.text, after);
    } else {
      ScanBlockComment(Block, t.inner, t.ended, after);
    }
  }

  /** One token in front: comments vanish, everything else is copied byte for byte. */
  lemma ScanToken(t: Token, after: seq<byte>)
    requires Fits(t, after)
    ensures Scan(Code, Text(t) + after) == (if IsComment(t) then [] else Text(t)) + Scan(Code, after)
  {
    match t {
      case Literal(body, closed) => ScanOpenLiteral(body, closed, after);
      case Plain(b) => ScanPlain(b, after);
      case _ => ScanComment(t, after);
    }
  }

  /** Main law: however a text is cut into tokens, stripping it drops exactly the comment tokens. */
  lemma {:induction false} StripDropsComments(ts: seq<Token>)
    requires Lexed(ts)
    ensures Scan(Code, Render(ts)) == Render(WithoutComments(ts))
  {
    if ts != [] {
      ScanToken(ts[0], Render(ts[1..]));
      StripDropsComments(ts[1..]);
      if !IsComment(ts[0]) {
        assert WithoutComments(ts)[1..] == WithoutComments(ts[1..]);
      }
    }
  }

  // ----------------------------------------------------- every text has a cut

  function LiteralEnd(s: seq<byte>): (n: nat)
    ensures n <= |s|
    ensures n < |s| ==> s[n] == QUOTE && StringBody(s[..n], false)
    ensures n == |s| ==> StringBody(s, true)
  {
    if s == [] then 0
    else if s[0] == QUOTE then 0
    else if s[0] == BACKSLASH then
      (if |s| == 1 then 1 else
         var n := LiteralEnd(s[2..]) + 2;
         assert n < |s| ==> s[..n][2..] == s[2..][..n - 2];
         n)
    else
      var n := LiteralEnd(s[1..]) + 1;
      assert n < |s| ==> s[..n][1..] == s[1..][..n - 1];
      n
  }

  function LineEnd(s: seq<byte>): (n: nat)
    ensures n <= |s| && NEWLINE !in s[..n]
    ensures n < |s| ==> s[n] == NEWLINE
  {
    if s == [] || s[0] == NEWLINE then 0 else
      var n := LineEnd(s[1..]) + 1;
      assert s[..n] == [s[0]] + s[1..][..n - 1];
      n
  }

  function BlockEnd(s: seq<byte>): (n: nat)
    ensures n <= |s| && NoTerminator(s[..n])
    ensures n < |s| ==> n + 1 < |s| && s[n] == STAR && s[n + 1] == SLASH
  {
    if |s| < 2 then |s|
    else if s[0] == STAR && s[1] == SLASH then 0
    else
      var n := BlockEnd(s[1..]) + 1;
      assert NoTerminator(s[..n]) by {
        assert forall k :: 1 <= k < n ==> s[k] == s[1..][..n - 1][k - 1];
      }
      n
  }

  function LiteralToken(s: seq<byte>): (t: Token)
    requires s != [] && s[0] == QUOTE
    ensures t.Literal? && Text(t) <= s && Fits(t, s[|Text(t)|..])
  {
    var n := LiteralEnd(s[1..]);
    assert s[1..][..n] == s[1..n + 1];
    if n < |s| - 1 then Literal(s[1..n + 1], true) else Literal(s[1..], false)
  }

  function LineToken(s: seq<byte>): (t: Token)
    requires |s| > 1 && s[0] == SLASH && s[1] == SLASH
    ensures t.LineComment? && Text(t) <= s && Fits(t, s[|Text(t)|..])
  {
    var n := LineEnd(s[2..]);
    assert s[2..][..n] == s[2..n + 2];
    LineComment(s[2..n + 2])
  }

  function BlockToken(s: seq<byte>): (t: Token)
    requires |s| > 1 && s[0] == SLASH && s[1] == STAR
    ensures t.BlockComment? && Text(t) <= s && Fits(t, s[|Text(t)|..])
  {
    var n := BlockEnd(s[2..]);
    assert s[2..][..n] == s[2..n + 2];
    if n < |s| - 2 then
      assert s[2..][n + 1] == s[n + 3];
      BlockComment(s[2..n + 2], true)
    else BlockComment(s[2..], false)
  }

  /** The first token of a non-empty text. */
  function FirstToken(s: seq<byte>): (t: Token)
    requires s != []
    ensures Text(t) <= s && Fits(t, s[|Text(t)|..])
  {
    if s[0] == QUOTE then LiteralToken(s)
    else if |s| > 1 && s[0] == SLASH && s[1] == SLASH then LineToken(s)
    else if |s| > 1 && s[0] == SLASH && s[1] == STAR then BlockToken(s)
    else Plain(s[0])
  }

  /** Lex cuts every byte sequence, unterminated strings and comments included, and loses nothing. */
  function Lex(s: seq<byte>): (ts: seq<Token>)
    ensures Lexed(ts) && Render(ts) == s
    decreases |s|
  {
    if s == [] then [] else
      var t := FirstToken(s);
      var rest := Lex(s[|Text(t)|..]);
      assert ([t] + rest)[1..] == rest;
      [t] + rest
  }

  // ---------------------------------------------------------------- in characters

  predicate Ascii(s: string) {
    forall i :: 0 <= i < |s| ==> s[i] as int < 128
  }

  function Bytes(s: string): seq<byte>
    requires Ascii(s)
  {
    seq(|s|, i requires 0 <= i < |s| => s[i] as int as byte)
  }

  lemma {:induction false} PlainBody(s: seq<byte>)
    requires '"' as int as byte !in s && '\\' as int as byte !in s
    ensures StringBody(s, false)
  {
    if s != [] {
      PlainBody(s[1..]);
    }
  }

  lemma {:induction false} EscapedBody(s: seq<byte>, b: byte, t: seq<byte>)
    requires StringBody(s, false) && StringBody(t, false)
    ensures StringBody(s + ['\\' as int as byte, b] + t, false)
    decreases |s|
  {
    var all := s + ['\\' as int as byte, b] + t;
    if s == [] {
      assert all[2..] == t;
    } else if s[0] == '\\' as int as byte {
      assert all[2..] == s[2..] + ['\\' as int as byte, b] + t;
      EscapedBody(s[2..], b, t);
    } else {
      assert all[1..] == s[1..] + ['\\' as int as byte, b] + t;
      EscapedBody(s[1..], b, t);
    }
  }

  /** A line comment goes up to its newline, a block comment altogether. */
  lemma CommentsInText(s: string, after: seq<byte>)
    requires Ascii(s)
    ensures '\n' !in s ==> Scan(Code, Bytes("//" + s + "\n") + after) == Scan(Code, Bytes("\n") + after)
    ensures '*' !in s ==> Scan(Code, Bytes("/*" + s + "*/") + after) == Scan(Code, after)
  {
    hide Scan;
    var inner := Bytes(s);
    if '\n' !in s {
      assert Bytes("//" + s + "\n") + after == Text(LineComment(inner)) + (Bytes("\n") + after);
      ScanToken(LineComment(inner), Bytes("\n") + after);
    }
    if '*' !in s {
      assert Bytes("/*" + s + "*/") + after == Text(BlockComment(inner, true)) + after;
      ScanToken(BlockComment(inner, true), after);
    }
  }

  /** A string whose characters make a body is copied with its quotes. */
  lemma QuotedText(s: string, after: seq<byte>)
    requires Ascii(s) && StringBody(Bytes(s), false)
    ensures var quoted := Bytes("\"" + s + "\""); Scan(Code, quoted + after) == quoted + Scan(Code, after)
  {
    hide Scan, StringBody;
    assert Bytes("\"" + s + "\"") == Text(Literal(Bytes(s), true));
    ScanToken(Literal(Bytes(s), true), after);
  }

  /** What stands between quotes is copied, whatever it looks like, and an escaped quote does not end it. */
  lemma StringsInText(s: string, t: string, after: seq<byte>)
    requires Ascii(s) && Ascii(t) && '"' !in s && '\\' !in s && '"' !in t && '\\' !in t
    ensures var quoted := Bytes("\"" + s + "\""); Scan(Code, quoted + after) == quoted + Scan(Code, after)
    ensures var quoted := Bytes("\"" + (s + "\\\"" + t) + "\""); Scan(Code, quoted + after) == quoted + Scan(Code, after)
  {
    hide Scan, StringBody;
    PlainBody(Bytes(s));
    QuotedText(s, after);
    PlainBody(Bytes(t));
    EscapedBody(Bytes(s), '"' as int as byte, Bytes(t));
    assert Bytes(s + "\\\"" + t) == Bytes(s) + ['\\' as int as byte, '"' as int as byte] + Bytes(t);
    QuotedText(s + "\\\"" + t, after);
  }

  /** Any other character is copied. */
  lemma OthersInText(c: char, after: seq<byte>)
    requires Ascii([c]) && c != '"' && c != '/'
    ensures Scan(Code, Bytes([c]) + after) == Bytes([c]) + Scan(Code, after)
  {
    assert [c][0] as int < 128;
    ScanPlain(c as int as byte, after);
    assert Bytes([c]) == [c as int as byte];
  }

  // ------------------------------------------------------------- consequences

  lemma {:induction false} NothingToDrop(ts: seq<Token>)
    ensures |Render(WithoutComments(ts))| <= |Render(ts)|
    ensures CommentFree(ts) <==> |Render(WithoutComments(ts))| == |Render(ts)|
    ensures CommentFree(ts) ==> WithoutComments(ts) == ts
  {
    if ts != [] {
      NothingToDrop(ts[1..]);
      assert ts == [ts[0]] + ts[1..];
      if !IsComment(ts[0]) {
        assert WithoutComments(ts)[1..] == WithoutComments(ts[1..]);
      }
    }
  }

  /** Stripping is the identity exactly on the texts with no comment outside a string. */
  lemma StripIdentity(data: seq<byte>)
    ensures Scan(Code, data) == data <==> CommentFree(Lex(data))
  {
    StripDropsComments(Lex(data));
    NothingToDrop(Lex(data));
  }

  lemma {:induction false} KeptHead(ts: seq<Token>)
    requires Lexed(ts) && ts != [] && ts[0] == Plain(SLASH)
    ensures WithoutComments(ts[1..]) == [] || WithoutComments(ts[1..])[0] == ts[1]
    ensures |ts| > 1 ==> !IsComment(ts[1])
  {
    if |ts| > 1 {
      assert Render(ts[1..]) == Text(ts[1]) + Render(ts[2..]) by { assert ts[1..][1..] == ts[2..]; }
      assert ts[1..][0] == ts[1];
    }
  }

  /** The text that is left is itself properly cut, with no comment in it. */
  lemma {:induction false} KeptIsLexed(ts: seq<Token>)
    requires Lexed(ts)
    ensures Lexed(WithoutComments(ts)) && CommentFree(WithoutComments(ts))
  {
    if ts != [] {
      KeptIsLexed(ts[1..]);
      var kept := WithoutComments(ts[1..]);
      if !IsComment(ts[0]) {
        assert ([ts[0]] + kept)[1..] == kept;
        if Render(ts[1..]) == [] {
          assert ts[1..] == [];
        } else if ts[0] == Plain(SLASH) {
          KeptHead(ts);
          assert kept[0] == ts[1];
          assert ts[1..][0] == ts[1];
          assert Render(kept) == Text(ts[1]) + Render(kept[1..]);
          assert Render(ts[1..]) == Text(ts[1]) + Render(ts[1..][1..]);
        }
      }
    }
  }

  /** Stripping twice is stripping once, on every byte sequence. */
  lemma StripIdempotent(data: seq<byte>)
    ensures Scan(Code, Scan(Code, data)) == Scan(Code, data)
  {
    var ts := Lex(data);
    StripDropsComments(ts);
    KeptIsLexed(ts);
    StripDropsComments(WithoutComments(ts));
    NothingToDrop(WithoutComments(ts));
  }

  // ------------------------------------------------------------- the program

  /** The result so far and the automaton's answer for the rest make up the automaton's answer for everything. */
  ghost predicate Owes(data: seq<byte>, result: seq<byte>, m: Mode, i: nat)
    requires i <= |data|
  {
    result + Scan(m, data[i..]) == Scan(Code, data)
  }

  lemma Advance(data: seq<byte>, result: seq<byte>, m: Mode, i: nat, longer: seq<byte>)
    requires i < |data| && Owes(data, result, m, i)
    requires longer == result + Emit(m, data[i])
    ensures Owes(data, longer, Next(m, data[i]), i + 1)
  {
    assert data[i..][1..] == data[i + 1..];
  }

  lemma AdvanceTwo(data: seq<byte>, result: seq<byte>, m: Mode, i: nat, longer: seq<byte>)
    requires i + 1 < |data| && Owes(data, result, m, i)
    requires longer == result + Emit(m, data[i]) + Emit(Next(m, data[i]), data[i + 1])
    ensures Owes(data, longer, Next(Next(m, data[i]), data[i + 1]), i + 2)
  {
    Advance(data, result, m, i, result + Emit(m, data[i]));
    Advance(data, result + Emit(m, data[i]), Next(m, data[i]), i + 1, longer);
  }

  /** A slash that opens no comment: the automaton writes it one byte late. */
  lemma LoneSlash(data: seq<byte>, result: seq<byte>, i: nat)
    requires i < |data| && data[i] == SLASH && Owes(data, result, Code, i)
    requires i + 1 < |data| ==> data[i + 1] != SLASH && data[i + 1] != STAR
    ensures Owes(data, result + [SLASH], Code, i + 1)
  {
    assert [SLASH] + data[i + 1..] == data[i..];
    ScanPlain(SLASH, data[i + 1..]);
    assert result + ([SLASH] + Scan(Code, data[i + 1..])) == result + [SLASH] + Scan(Code, data[i + 1..]);
  }

  /** After a star that is not followed by a slash the automaton is as if it had not seen the star. */
  lemma ForgetStar(data: seq<byte>, result: seq<byte>, i: nat)
    requires i <= |data| && Owes(data, result, BlockStar, i)
    requires i < |data| ==> data[i] != SLASH
    ensures Owes(data, result, Block, i)
  {
  }

  /** Input that ends inside a string or a comment leaves nothing to write. */
  lemma AtEnd(data: seq<byte>, result: seq<byte>, m: Mode)
    requires m != Slash && m != Code && Owes(data, result, m, |data|)
    ensures Owes(data, result, Code, |data|)
  {
  }

  lemma DanglingBackslash(data: seq<byte>, result: seq<byte>)
    requires Owes(data, result, Escape, |data|)
    ensures Owes(data, result, Str, |data|)
  {
  }

  lemma EndOfLine(data: seq<byte>, result: seq<byte>, i: nat)
    requires i < |data| && data[i] == NEWLINE && Owes(data, result, Line, i)
    ensures Owes(data, result, Code, i)
  {
  }

  /** Copies the string literal that starts at `start`, its closing quote included if there is one. */
  method CopyLiteral(data: seq<byte>, start: nat, before: seq<byte>) returns (result: seq<byte>, i: nat)
    requires start < |data| && data[start] == QUOTE && Owes(data, before, Code, start)
    ensures start < i <= |data| && Owes(data, result, Code, i)
  {
    hide Scan, Owes;
    Advance(data, before, Code, start, before + [data[start]]);
    result, i := before + [data[start]], start + 1;
    while i < |data| && data[i] != QUOTE
      invariant start < i <= |data|
      invariant Owes(data, result, Str, i)
    {
      if data[i] == BACKSLASH && i + 1 < |data| {
        assert Next(Next(Str, data[i]), data[i + 1]) == Str;
        AdvanceTwo(data, result, Str, i, result + [data[i], data[i + 1]]);
        result := result + [data[i], data[i + 1]];
        i := i + 2;
        continue;
      }
      Advance(data, result, Str, i, result + [data[i]]);
      result := result + [data[i]];
      i := i + 1;
      if data[i - 1] == BACKSLASH { DanglingBackslash(data, result); }
    }
    if i < |data| {
      Advance(data, result, Str, i, result + [data[i]]);
      result := result + [data[i]];
      i := i + 1;
    } else {
      AtEnd(data, result, Str);
    }
  }

  /** The end of the line comment that starts at `start`; the newline stays. */
  method SkipLine(data: seq<byte>, start: nat, ghost result: seq<byte>) returns (i: nat)
    requires start + 1 < |data| && data[start] == SLASH && data[start + 1] == SLASH
    requires Owes(data, result, Code, start)
    ensures start < i <= |data| && Owes(data, result, Code, i)
  {
    hide Scan, Owes;
    AdvanceTwo(data, result, Code, start, result);
    i := start + 2;
    while i < |data| && data[i] != NEWLINE
      invariant start < i <= |data|
      invariant Owes(data, result, Line, i)
    {
      Advance(data, result, Line, i, result);
      i := i + 1;
    }
    if i < |data| { EndOfLine(data, result, i); } else { AtEnd(data, result, Line); }
  }

  /** The end of the block comment that starts at `start`, or of the data if nothing closes it. */
  method SkipBlock(data: seq<byte>, start: nat, ghost result: seq<byte>) returns (i: nat)
    requires start + 1 < |data| && data[start] == SLASH && data[start + 1] == STAR
    requires Owes(data, result, Code, start)
    ensures start < i <= |data| && Owes(data, result, Code, i)
  {
    hide Scan, Owes;
    AdvanceTwo(data, result, Code, start, result);
    i := start + 2;
    while i + 1 < |data| && (data[i] != STAR || data[i + 1] != SLASH)
      invariant start < i <= |data|
      invariant Owes(data, result, Block, i)
    {
      Advance(data, result, Block, i, result);
      i := i + 1;
      if data[i - 1] == STAR { ForgetStar(data, result, i); }
    }
    if i + 1 < |data| {
      AdvanceTwo(data, result, Block, i, result);
      i := i + 2;
    } else {
      if i < |data| { Advance(data, result, Block, i, result); }
      AtEnd(data, result, if i == |data| then Block else Next(Block, data[i]));
      i := |data|;
    }
  }

  method Strip(data: seq<byte>) returns (result: seq<byte>)
    ensures result == Scan(Code, data)
  {
    result := [];
    var i := 0;
    while i < |data|
      invariant 0 <= i <= |data|
      invariant Owes(data, result, Code, i)
    {
      if data[i] == QUOTE {
        result, i := CopyLiteral(data, i, result);
        continue;
      }
      if i + 1 < |data| && data[i] == SLASH && data[i + 1] == SLASH {
        i := SkipLine(data, i, result);
        continue;
      }
      if i + 1 < |data| && data[i] == SLASH && data[i + 1] == STAR {
        i := SkipBlock(data, i, result);
        continue;
      }
      if data[i] == SLASH {
        LoneSlash(data, result, i);
      } else {
        Advance(data, result, Code, i, result + [data[i]]);
      }
      result := result + [data[i]];
      i := i + 1;
    }
  }
}
