/** Stock helper datatypes and string concatenation shared by every module. */
module Wrappers {

  /** Kotlin's nullable `T?`. */
  datatype Option<+T> = None | Some(value: T)

  /** The value of a call that either returns normally or lets an exception escape. */
  datatype Result<+T> = Ok(value: T) | Failed(exception: string)
}

module Text {

  /** Left-to-right concatenation of `pieces`, defined from the end so that a loop
      appending one piece after the other follows it step by step. */
  function Concat(pieces: seq<string>): string
  {
    if |pieces| == 0 then "" else Concat(pieces[..|pieces| - 1]) + pieces[|pieces| - 1]
  }

  lemma ConcatPrefixStep(pieces: seq<string>, i: nat)
    requires i < |pieces|
    ensures Concat(pieces[..i + 1]) == Concat(pieces[..i]) + pieces[i]
  {
    assert pieces[..i + 1][..i] == pieces[..i];
  }

  lemma {:induction false} ConcatAppend(a: seq<string>, b: seq<string>)
    ensures Concat(a + b) == Concat(a) + Concat(b)
    decreases |b|
  {
    if |b| == 0 {
      assert a + b == a;
    } else {
      var b' := b[..|b| - 1];
      assert (a + b)[..|a + b| - 1] == a + b';
      ConcatAppend(a, b');
    }
  }

  lemma ConcatCons(p: string, rest: seq<string>)
    ensures Concat([p] + rest) == p + Concat(rest)
  {
    ConcatAppend([p], rest);
    assert [p][..0] == [];
  }

  /** `items` joined by `sep`, defined from the front: the usual reading of a separated list. */
  function Join(items: seq<string>, sep: string): string
  {
    if |items| == 0 then ""
    else if |items| == 1 then items[0]
    else items[0] + sep + Join(items[1..], sep)
  }

  /** The pieces a loop appends when it writes item i followed by `sep` unless i is the last index. */
  function SeparatedPieces(items: seq<string>, sep: string): (r: seq<string>)
    ensures |r| == |items|
    ensures forall i :: 0 <= i < |items| ==> r[i] == items[i] + (if i != |items| - 1 then sep else "")
  {
    seq(|items|, i requires 0 <= i < |items| => items[i] + (if i != |items| - 1 then sep else ""))
  }

  /** Writing each item followed by a separator, except after the last, yields the joined list. */
  lemma {:induction false} SeparatedPiecesJoin(items: seq<string>, sep: string)
    ensures Concat(SeparatedPieces(items, sep)) == Join(items, sep)
    decreases |items|
  {
    if |items| == 0 {
    } else if |items| == 1 {
      var ps := SeparatedPieces(items, sep);
      assert ps[0] == items[0];
      assert ps == [items[0]];
      ConcatCons(items[0], []);
    } else {
      var rest := items[1..];
      assert SeparatedPieces(items, sep) == [items[0] + sep] + SeparatedPieces(rest, sep);
      ConcatCons(items[0] + sep, SeparatedPieces(rest, sep));
      SeparatedPiecesJoin(rest, sep);
    }
  }
}
