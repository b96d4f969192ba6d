/**
 * The placeholder syntax of a request-path template: a `:` followed by one
 * or more word characters (the pattern `/:([\w_]+)/` of lib/her/model/paths.rb).
 * A template is scanned left to right into literal characters and tokens.
 */
module Template {

  /** `\w` of a Ruby regular expression: ASCII letters, digits and `_`. */
  predicate IsWordChar(c: char) {
    ('a' <= c <= 'z') || ('A' <= c <= 'Z') || ('0' <= c <= '9') || c == '_'
  }

  /** A placeholder starts at the first character of `s`. */
  predicate StartsToken(s: string) {
    |s| >= 2 && s[0] == ':' && IsWordChar(s[1])
  }

  /** The longest prefix of `s` made of word characters (the greedy `+`). */
  function WordPrefix(s: string): (w: string)
    ensures |w| <= |s| && w == s[..|w|]
    ensures forall i :: 0 <= i < |w| ==> IsWordChar(w[i])
    ensures |w| < |s| ==> !IsWordChar(s[|w|])
  {
    if s == [] || !IsWordChar(s[0]) then [] else [s[0]] + WordPrefix(s[1..])
  }

  /** One step of the scan: a character copied as it is, or a placeholder `:name`. */
  datatype Piece = Lit(c: char) | Token(name: string)

  /** The scan of the template: leftmost match first, each match as long as possible. */
  function Pieces(s: string): seq<Piece>
    decreases |s|
  {
    if s == [] then []
    else if StartsToken(s) then
      var name := WordPrefix(s[1..]);
      [Token(name)] + Pieces(s[1 + |name|..])
    else [Lit(s[0])] + Pieces(s[1..])
  }

  /** The text a piece stands for in the template. */
  function PieceText(p: Piece): string {
    match p
    case Lit(c) => [c]
    case Token(name) => ":" + name
  }

  /** Writes a scan back as template text. */
  function Unparse(ps: seq<Piece>): string {
    if ps == [] then [] else PieceText(ps[0]) + Unparse(ps[1..])
  }

  /** The placeholder names of a scan, in order of appearance. */
  function Names(ps: seq<Piece>): seq<string> {
    if ps == [] then []
    else (if ps[0].Token? then [ps[0].name] else []) + Names(ps[1..])
  }

  /** The two parameter keys a placeholder `:name` may be filled from: `name` and `_name`. */
  function KeysOf(name: string): set<string> {
    {name, "_" + name}
  }

  /** Every parameter key a scan may consult. */
  function Referenced(ps: seq<Piece>): set<string> {
    if ps == [] then {}
    else (if ps[0].Token? then KeysOf(ps[0].name) else {}) + Referenced(ps[1..])
  }

  /** No colon in `s` is followed by a word character. */
  predicate HasNoTokens(s: string) {
    forall i :: 0 <= i < |s| - 1 ==> !(s[i] == ':' && IsWordChar(s[i + 1]))
  }

  /** The pieces a well-formed scan consists of: non-empty all-word names, no name
      that could have been extended by the literal character after it, and no literal
      colon that a word character follows, since that would have started a token. */
  predicate WellFormed(ps: seq<Piece>) {
    && (forall k :: 0 <= k < |ps| && ps[k].Token? ==>
      && |ps[k].name| > 0
      && (forall i :: 0 <= i < |ps[k].name| ==> IsWordChar(ps[k].name[i]))
      && (k + 1 < |ps| && ps[k + 1].Lit? ==> !IsWordChar(ps[k + 1].c)))
    && (forall k :: 0 <= k < |ps| - 1 && ps[k] == Lit(':') ==>
      !(ps[k + 1].Lit? && IsWordChar(ps[k + 1].c)))
  }

  /** How many characters the first piece of the scan of `s` covers. */
  function HeadLength(s: string): (k: nat)
    requires s != []
    ensures 1 <= k <= |s|
  {
    if StartsToken(s) then 1 + |WordPrefix(s[1..])| else 1
  }

  /** The first piece of the scan of `s`. */
  function Head(s: string): Piece
    requires s != []
  {
    if StartsToken(s) then Token(WordPrefix(s[1..])) else Lit(s[0])
  }

  lemma PiecesStep(s: string)
    requires s != []
    ensures Pieces(s) == [Head(s)] + Pieces(s[HeadLength(s)..])
  {
  }

  lemma HeadText(s: string)
    requires s != []
    ensures PieceText(Head(s)) == s[..HeadLength(s)]
  {
    if StartsToken(s) {
      var name := WordPrefix(s[1..]);
      assert name == s[1..1 + |name|];
      assert s[..1 + |name|] == [s[0]] + s[1..1 + |name|];
    }
  }

  lemma UnparseCons(p: Piece, ps: seq<Piece>)
    ensures Unparse([p] + ps) == PieceText(p) + Unparse(ps)
  {
    assert ([p] + ps)[1..] == ps;
  }

  lemma SplitAt(s: string, k: nat)
    requires k <= |s|
    ensures s[..k] + s[k..] == s
  {
  }

  /** Scanning loses nothing: the pieces spell the template back. */
  lemma {:induction false} UnparsePieces(s: string)
    ensures Unparse(Pieces(s)) == s
    decreases |s|
  {
    if s != [] {
      var k := HeadLength(s);
      var tail := Pieces(s[k..]);
      PiecesStep(s);
      UnparseCons(Head(s), tail);
      HeadText(s);
      UnparsePieces(s[k..]);
      SplitAt(s, k);
    }
  }

  /** The conditions `WellFormed` puts on the piece at index 0 of a scan. */
  predicate WellFormedHead(p: Piece, ps: seq<Piece>) {
    && (p.Token? ==>
      && |p.name| > 0
      && (forall i :: 0 <= i < |p.name| ==> IsWordChar(p.name[i]))
      && (ps != [] && ps[0].Lit? ==> !IsWordChar(ps[0].c)))
    && (p == Lit(':') && ps != [] ==> !(ps[0].Lit? && IsWordChar(ps[0].c)))
  }

  lemma WellFormedCons(p: Piece, ps: seq<Piece>)
    requires WellFormedHead(p, ps) && WellFormed(ps)
    ensures WellFormed([p] + ps)
  {
    var qs := [p] + ps;
    forall k | 0 <= k < |qs| && qs[k].Token?
      ensures |qs[k].name| > 0
      ensures forall i :: 0 <= i < |qs[k].name| ==> IsWordChar(qs[k].name[i])
      ensures k + 1 < |qs| && qs[k + 1].Lit? ==> !IsWordChar(qs[k + 1].c)
    {
      if k > 0 {
        assert qs[k] == ps[k - 1];
        assert k + 1 < |qs| ==> qs[k + 1] == ps[k];
      }
    }
    forall k | 0 <= k < |qs| - 1 && qs[k] == Lit(':')
      ensures !(qs[k + 1].Lit? && IsWordChar(qs[k + 1].c))
    {
      assert qs[k + 1] == ps[k];
      if k > 0 {
        assert qs[k] == ps[k - 1];
      }
    }
  }

  lemma HeadWellFormed(s: string)
    requires s != []
    ensures WellFormedHead(Head(s), Pieces(s[HeadLength(s)..]))
  {
    if StartsToken(s) {
      var name := WordPrefix(s[1..]);
      var rest := s[1 + |name|..];
      if rest != [] {
        assert rest[0] == s[1..][|name|];
        if StartsToken(rest) {
          assert Pieces(rest)[0].Token?;
        } else {
          assert Pieces(rest)[0] == Lit(rest[0]);
        }
      }
    } else if s[0] == ':' && |s| > 1 {
      var rest := s[1..];
      assert rest[0] == s[1];
      if !StartsToken(rest) {
        assert Pieces(rest)[0] == Lit(rest[0]);
      }
    }
  }

  lemma WellFormedTail(ps: seq<Piece>)
    requires ps != [] && WellFormed(ps)
    ensures WellFormedHead(ps[0], ps[1..]) && WellFormed(ps[1..])
  {
    var tail := ps[1..];
    forall k | 0 <= k < |tail| && tail[k].Token?
      ensures |tail[k].name| > 0
      ensures forall i :: 0 <= i < |tail[k].name| ==> IsWordChar(tail[k].name[i])
      ensures k + 1 < |tail| && tail[k + 1].Lit? ==> !IsWordChar(tail[k + 1].c)
    {
      assert tail[k] == ps[k + 1];
      assert k + 1 < |tail| ==> tail[k + 1] == ps[k + 2];
    }
    forall k | 0 <= k < |tail| - 1 && tail[k] == Lit(':')
      ensures !(tail[k + 1].Lit? && IsWordChar(tail[k + 1].c))
    {
      assert tail[k] == ps[k + 1] && tail[k + 1] == ps[k + 2];
    }
    if tail != [] {
      assert tail[0] == ps[1];
    }
  }

  /** The first character a non-empty scan spells. */
  lemma UnparseFirst(ps: seq<Piece>)
    requires ps != []
    ensures Unparse(ps) != [] && Unparse(ps)[0] == if ps[0].Token? then ':' else ps[0].c
  {
    UnparseCons(ps[0], ps[1..]);
    assert [ps[0]] + ps[1..] == ps;
  }

  /** A literal the next piece does not extend into a token is scanned as itself. */
  lemma ScanLiteral(c: char, tail: seq<Piece>)
    requires WellFormedHead(Lit(c), tail)
    ensures Pieces([c] + Unparse(tail)) == [Lit(c)] + Pieces(Unparse(tail))
  {
    var u := Unparse(tail);
    var s := [c] + u;
    assert s[0] == c && s[1..] == u;
    if tail != [] {
      UnparseFirst(tail);
      assert s[1] == u[0];
    }
    assert !StartsToken(s);
  }

  /** A token the next piece does not extend is scanned as itself. */
  lemma ScanToken(name: string, tail: seq<Piece>)
    requires WellFormedHead(Token(name), tail)
    ensures Pieces(":" + name + Unparse(tail)) == [Token(name)] + Pieces(Unparse(tail))
  {
    var u := Unparse(tail);
    var s := ":" + name + u;
    if tail != [] {
      UnparseFirst(tail);
    }
    assert s[1..] == name + u;
    WordPrefixStops(name, u);
    assert s[1] == name[0] && StartsToken(s);
    assert s[1 + |name|..] == u;
  }

  /** The scan is the only well-formed sequence of pieces that spells the template:
      together with `UnparsePieces` and `PiecesWellFormed`, this pins `Pieces` down as
      the leftmost, longest match of `/:([\w_]+)/`. */
  lemma {:induction false} ScanIsUnique(ps: seq<Piece>, s: string)
    requires WellFormed(ps) && Unparse(ps) == s
    ensures ps == Pieces(s)
    decreases |ps|
  {
    if ps != [] {
      var tail := ps[1..];
      WellFormedTail(ps);
      ScanIsUnique(tail, Unparse(tail));
      UnparseCons(ps[0], tail);
      assert [ps[0]] + tail == ps;
      match ps[0]
      case Lit(c) => ScanLiteral(c, tail);
      case Token(name) => ScanToken(name, tail);
    }
  }

  /** Every placeholder the scan finds is a maximal run of word characters after a colon. */
  lemma {:induction false} PiecesWellFormed(s: string)
    ensures WellFormed(Pieces(s))
    decreases |s|
  {
    if s != [] {
      var k := HeadLength(s);
      PiecesStep(s);
      PiecesWellFormed(s[k..]);
      HeadWellFormed(s);
      WellFormedCons(Head(s), Pieces(s[k..]));
    }
  }

  /** A template has no placeholder exactly when its scan is all literal characters. */
  lemma {:induction false} NoTokensIffAllLiteral(s: string)
    ensures HasNoTokens(s) <==> Names(Pieces(s)) == []
    decreases |s|
  {
    if s == [] {
    } else if StartsToken(s) {
      assert !HasNoTokens(s) by { assert s[0] == ':' && IsWordChar(s[1]); }
    } else {
      NoTokensIffAllLiteral(s[1..]);
      assert Names(Pieces(s)) == Names(Pieces(s[1..]));
      if HasNoTokens(s) {
        assert HasNoTokens(s[1..]) by {
          forall i | 0 <= i < |s[1..]| - 1 ensures !(s[1..][i] == ':' && IsWordChar(s[1..][i + 1])) {
            assert s[1..][i] == s[i + 1] && s[1..][i + 1] == s[i + 2];
          }
        }
      } else {
        var i :| 0 <= i < |s| - 1 && s[i] == ':' && IsWordChar(s[i + 1]);
        assert i > 0;
        assert s[1..][i - 1] == s[i] && s[1..][i] == s[i + 1];
        assert !HasNoTokens(s[1..]);
      }
    }
  }

  /** `s` holds no colon at all. */
  predicate NoColon(s: string) {
    forall i :: 0 <= i < |s| ==> s[i] != ':'
  }

  /** The scan of text that holds no placeholder. */
  function Literals(s: string): (ps: seq<Piece>)
    ensures Names(ps) == [] && Unparse(ps) == s && Referenced(ps) == {}
  {
    if s == [] then [] else [Lit(s[0])] + Literals(s[1..])
  }

  /** Colon-free text is copied piece by piece and the scan goes on behind it. */
  lemma {:induction false} PiecesOfPlainText(lit: string, rest: string)
    requires NoColon(lit)
    ensures Pieces(lit + rest) == Literals(lit) + Pieces(rest)
  {
    if lit == [] {
      assert lit + rest == rest;
    } else {
      assert (lit + rest)[0] == lit[0] && (lit + rest)[1..] == lit[1..] + rest;
      PiecesOfPlainText(lit[1..], rest);
    }
  }

  /** Colon-free text is scanned as literals only. */
  lemma PiecesOfColonFree(s: string)
    requires NoColon(s)
    ensures Pieces(s) == Literals(s)
  {
    PiecesOfPlainText(s, []);
    assert s + [] == s;
    assert Pieces([]) == [];
    assert Literals(s) + [] == Literals(s);
  }

  /** The greedy word match stops exactly where the word characters end. */
  lemma {:induction false} WordPrefixStops(name: string, rest: string)
    requires forall i :: 0 <= i < |name| ==> IsWordChar(name[i])
    requires rest == [] || !IsWordChar(rest[0])
    ensures WordPrefix(name + rest) == name
  {
    if name == [] {
      assert name + rest == rest;
    } else {
      assert (name + rest)[0] == name[0] && (name + rest)[1..] == name[1..] + rest;
      WordPrefixStops(name[1..], rest);
    }
  }

  /** `:name` followed by a non-word character is scanned as one placeholder. */
  lemma PiecesOfPlaceholder(name: string, rest: string)
    requires |name| > 0 && forall i :: 0 <= i < |name| ==> IsWordChar(name[i])
    requires rest == [] || !IsWordChar(rest[0])
    ensures Pieces(":" + name + rest) == [Token(name)] + Pieces(rest)
  {
    var s := ":" + name + rest;
    assert s[1..] == name + rest;
    WordPrefixStops(name, rest);
    assert StartsToken(s) && HeadLength(s) == 1 + |name| && Head(s) == Token(name);
    assert s[1 + |name|..] == rest;
    PiecesStep(s);
  }
}
