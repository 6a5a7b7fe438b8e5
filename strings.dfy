/** String helpers that stand for JavaScript built-ins: `+` over many pieces and `Array.prototype.join`. */
module Strings {

  /** The concatenation of all pieces, in order. */
  function Concat(pieces: seq<string>): string {
    if |pieces| == 0 then "" else pieces[0] + Concat(pieces[1..])
  }

  /** Appending one piece at the end: what `ret += piece` does to the accumulator. */
  lemma {:induction false} ConcatSnoc(pieces: seq<string>, piece: string)
    ensures Concat(pieces + [piece]) == Concat(pieces) + piece
  {
    if |pieces| == 0 {
      assert pieces + [piece] == [piece];
    } else {
      assert (pieces + [piece])[1..] == pieces[1..] + [piece];
      ConcatSnoc(pieces[1..], piece);
    }
  }

  /** Concatenation of a few pieces, spelled out. */
  lemma ConcatFew(a: string, b: string, c: string, d: string)
    ensures Concat([]) == ""
    ensures Concat([a]) == a
    ensures Concat([a, b]) == a + b
    ensures Concat([a, b, c]) == a + b + c
    ensures Concat([a, b, c, d]) == a + b + c + d
  {
    assert [a][1..] == [] && Concat([a]) == a + "" == a;
    assert [b][1..] == [] && Concat([b]) == b + "" == b;
    assert [c][1..] == [] && Concat([c]) == c + "" == c;
    assert [d][1..] == [] && Concat([d]) == d + "" == d;
    assert [a, b][1..] == [b];
    assert [c, d][1..] == [d];
    assert Concat([c, d]) == c + d;
    assert [b, c][1..] == [c];
    assert Concat([b, c]) == b + c;
    assert [b, c, d][1..] == [c, d];
    assert Concat([b, c, d]) == b + (c + d);
    assert [a, b, c][1..] == [b, c];
    assert [a, b, c, d][1..] == [b, c, d];
  }

  /**
   * Regrouping an append. A lemma rather than an inline assertion, so that a
   * method building text in several steps gets the fact without its proof.
   */
  lemma AppendAssoc(a: string, b: string, c: string)
    ensures (a + b) + c == a + (b + c)
  {
  }

  /** `parts.join(sep)`: the parts with `sep` between neighbours, nothing for no parts. */
  function Join(parts: seq<string>, sep: string): string {
    if |parts| == 0 then ""
    else if |parts| == 1 then parts[0]
    else parts[0] + sep + Join(parts[1..], sep)
  }

  /** The first part opens the joined text, and a lone part is the whole of it. */
  lemma JoinFirst(parts: seq<string>, sep: string)
    requires |parts| > 0
    ensures parts[0] <= Join(parts, sep)
    ensures |parts| == 1 ==> Join(parts, sep) == parts[0]
  {
  }
}
