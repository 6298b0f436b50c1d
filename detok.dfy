/** `detok`: the text of a token sequence as the in-order concatenation of its pieces. */
module Detok {
  import opened Base

  /** The concatenation of `piece(t)` over `toks`, first token first. */
  function Pieces(piece: Token -> Bytes, toks: seq<Token>): Bytes
    decreases |toks|
  {
    if toks == [] then [] else Pieces(piece, toks[..|toks| - 1]) + piece(toks[|toks| - 1])
  }

  lemma PiecesSingle(piece: Token -> Bytes, t: Token)
    ensures Pieces(piece, [t]) == piece(t)
  {
    assert [t][..0] == [];
  }

  /** Detokenising splits at any point: the pieces of `a + b` are those of `a`, then those of `b`. */
  lemma {:induction false} PiecesAppend(piece: Token -> Bytes, a: seq<Token>, b: seq<Token>)
    decreases |b|
    ensures Pieces(piece, a + b) == Pieces(piece, a) + Pieces(piece, b)
  {
    if b == [] {
      assert a + b == a;
    } else {
      var b' := b[..|b| - 1];
      assert (a + b)[..|a + b| - 1] == a + b';
      assert (a + b)[|a + b| - 1] == b[|b| - 1];
      PiecesAppend(piece, a, b');
    }
  }

  /** Appending tokens only appends text: the old text is a prefix of the new one. */
  lemma PiecesPrefix(piece: Token -> Bytes, a: seq<Token>, b: seq<Token>)
    ensures Pieces(piece, a) <= Pieces(piece, a + b)
    ensures |Pieces(piece, a)| <= |Pieces(piece, a + b)|
  {
    PiecesAppend(piece, a, b);
  }

  /** The `detok` loop: `s += token_to_piece(model, t)` for each token in order. */
  method Detok(piece: Token -> Bytes, toks: seq<Token>) returns (s: Bytes)
    ensures s == Pieces(piece, toks)
  {
    s := [];
    for i := 0 to |toks|
      invariant s == Pieces(piece, toks[..i])
    {
      assert toks[..i + 1][..i] == toks[..i];
      s := s + piece(toks[i]);
    }
    assert toks[..|toks|] == toks;
  }
}
