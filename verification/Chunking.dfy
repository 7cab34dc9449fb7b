/** Cutting a byte string into pieces of at most a given size, and joining the pieces again. */
module Chunking {
  import opened SecretApi

  /** A chunk size of zero would make the loop that cuts the data run forever. */
  type Positive = n: nat | n >= 1 witness 1

  function Pieces(data: Bytes, size: Positive): (pieces: seq<Bytes>)
    ensures data != [] ==> pieces != []
  {
    if data == [] then []
    else if |data| <= size then [data]
    else [data[..size]] + Pieces(data[size..], size)
  }

  function Join(pieces: seq<Bytes>): Bytes {
    if pieces == [] then [] else Join(pieces[..|pieces| - 1]) + pieces[|pieces| - 1]
  }

  lemma JoinNext(pieces: seq<Bytes>, i: nat)
    requires i < |pieces|
    ensures Join(pieces[..i + 1]) == Join(pieces[..i]) + pieces[i]
  {
    assert pieces[..i + 1][..i] == pieces[..i];
  }

  lemma {:induction false} JoinSplit(pieces: seq<Bytes>, i: nat)
    requires i <= |pieces|
    ensures Join(pieces) == Join(pieces[..i]) + Join(pieces[i..])
    decreases |pieces| - i
  {
    if i == |pieces| {
      assert pieces[..i] == pieces;
    } else if i + 1 == |pieces| {
      assert pieces[i..] == [pieces[i]];
      assert [pieces[i]][..0] == [];
      assert Join(pieces[i..]) == Join([]) + pieces[i];
    } else {
      var n := |pieces| - 1;
      JoinSplit(pieces[..n], i);
      assert pieces[..n][..i] == pieces[..i];
      assert pieces[i..][..n - i] == pieces[..n][i..];
    }
  }

  lemma JoinOne(piece: Bytes)
    ensures Join([piece]) == piece
  {
    assert [piece][..0] == [];
  }

  /** Joining the pieces in order gives back the data. */
  lemma {:induction false} PiecesJoin(data: Bytes, size: Positive)
    ensures Join(Pieces(data, size)) == data
  {
    if data == [] {
    } else if |data| <= size {
      JoinOne(data);
    } else {
      var first, rest := data[..size], Pieces(data[size..], size);
      PiecesJoin(data[size..], size);
      JoinSplit([first] + rest, 1);
      assert ([first] + rest)[..1] == [first] && ([first] + rest)[1..] == rest;
      JoinOne(first);
    }
  }

  /** All pieces but the last have exactly the requested size, the last is not empty and not larger, and the
      number of pieces is the length divided by the size, rounded up. */
  lemma {:induction false} PiecesShape(data: Bytes, size: Positive)
    ensures var pieces := Pieces(data, size);
            && (forall i :: 0 <= i < |pieces| - 1 ==> |pieces[i]| == size)
            && (forall i :: 0 <= i < |pieces| ==> 1 <= |pieces[i]| <= size)
            && |pieces| * size < |data| + size
            && |data| <= |pieces| * size
  {
    if |data| > size {
      PiecesShape(data[size..], size);
      var rest := Pieces(data[size..], size);
      assert (|rest| + 1) * size == |rest| * size + size;
    }
  }
}
