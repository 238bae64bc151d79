/** Byte strings (Python `bytes`) and the concatenation of a sequence of them
    (`b"".join(pieces)`). */
module Bytes {

  newtype byte = x: int | 0 <= x < 256

  type Bytes = seq<byte>

  /** `b"".join(pieces)`, peeling the last piece first. */
  function Flatten(pieces: seq<Bytes>): Bytes
    decreases |pieces|
  {
    if |pieces| == 0 then [] else Flatten(pieces[..|pieces| - 1]) + pieces[|pieces| - 1]
  }

  /** The sum of the lengths of `pieces`. */
  function TotalLength(pieces: seq<Bytes>): nat
    decreases |pieces|
  {
    if |pieces| == 0 then 0 else TotalLength(pieces[..|pieces| - 1]) + |pieces[|pieces| - 1]|
  }

  lemma {:induction false} FlattenLength(pieces: seq<Bytes>)
    ensures |Flatten(pieces)| == TotalLength(pieces)
    decreases |pieces|
  {
    if |pieces| > 0 { FlattenLength(pieces[..|pieces| - 1]); }
  }

  lemma {:induction false} FlattenConcat(xs: seq<Bytes>, ys: seq<Bytes>)
    ensures Flatten(xs + ys) == Flatten(xs) + Flatten(ys)
    decreases |ys|
  {
    if |ys| == 0 {
      assert xs + ys == xs;
    } else {
      var zs, front, last := xs + ys, ys[..|ys| - 1], ys[|ys| - 1];
      assert zs[..|zs| - 1] == xs + front && zs[|zs| - 1] == last;
      FlattenConcat(xs, front);
      assert Flatten(zs) == (Flatten(xs) + Flatten(front)) + last;
      assert Flatten(ys) == Flatten(front) + last;
    }
  }

  lemma FlattenCons(x: Bytes, ys: seq<Bytes>)
    ensures Flatten([x] + ys) == x + Flatten(ys)
  {
    FlattenConcat([x], ys);
    assert [x][..0] == [];
  }

  lemma FlattenSnoc(xs: seq<Bytes>, x: Bytes)
    ensures Flatten(xs + [x]) == Flatten(xs) + x
  {
    assert (xs + [x])[..|xs|] == xs;
  }
}
