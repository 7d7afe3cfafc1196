/** JavaScript template literals: `l0${v0}l1${v1}...${vn-1}ln` evaluates to the string pieces
    l0..ln with the interpolated values v0..vn-1 between them. Both the markdown export and
    the prompt are built this way. */
module TemplateLiteral {

  /** `t` stands verbatim in `s` at offset `p`. */
  predicate OccursAt(s: string, p: int, t: string) {
    0 <= p && p + |t| <= |s| && s[p..p + |t|] == t
  }

  /** `s` ends with `t`. */
  predicate EndsWith(s: string, t: string) {
    |t| <= |s| && OccursAt(s, |s| - |t|, t)
  }

  /** Two strings standing one right after the other stand there as their concatenation. */
  lemma {:induction false} OccursConcat(s: string, p: int, t: string, q: int, u: string)
    requires OccursAt(s, p, t) && q == p + |t| && OccursAt(s, q, u)
    ensures OccursAt(s, p, t + u)
  {
    assert s[p..q + |u|] == s[p..q] + s[q..q + |u|];
  }

  /** Each part of a concatenation stands in it at its offset. */
  lemma {:induction false} OccursInConcat(x: string, y: string, z: string)
    ensures OccursAt(x + y + z, 0, x)
    ensures OccursAt(x + y + z, |x|, y)
    ensures OccursAt(x + y + z, |x| + |y|, z)
  {
    var s := x + y + z;
    assert s[0..|x|] == x;
    assert s[|x|..|x| + |y|] == y;
    assert s[|x| + |y|..|s|] == z;
  }

  /** What stands in a suffix of `s` stands in `s`, shifted by the suffix's offset. */
  lemma {:induction false} OccursShift(s: string, a: nat, i: int, t: string, j: int)
    requires a <= |s| && OccursAt(s[a..], i, t) && j == a + i
    ensures OccursAt(s, j, t)
  {
    assert s[a..][i..i + |t|] == s[j..j + |t|];
  }

  /** The ending of a string that stands in `s` stands in `s` as well. */
  lemma {:induction false} OccursEnding(s: string, p: int, t: string, e: string, q: int)
    requires OccursAt(s, p, t) && EndsWith(t, e) && q == p + |t| - |e|
    ensures OccursAt(s, q, e)
  {
    assert s[q..q + |e|] == s[p..p + |t|][|t| - |e|..|t|];
  }

  /** The first character of a string that stands in `s` stands in `s` as well. */
  lemma {:induction false} OccursOpening(s: string, p: int, t: string)
    requires OccursAt(s, p, t) && |t| > 0
    ensures OccursAt(s, p, [t[0]])
  {
    assert s[p..p + 1] == s[p..p + |t|][..1];
  }

  /** The string a template literal with these pieces and values evaluates to. */
  function Fill(pieces: seq<string>, values: seq<string>): string
    requires |pieces| == |values| + 1
    decreases |values|
  {
    if |values| == 0 then pieces[0]
    else pieces[0] + values[0] + Fill(pieces[1..], values[1..])
  }

  /** Where piece k starts in the evaluated string. */
  function PieceStart(pieces: seq<string>, values: seq<string>, k: nat): nat
    requires |pieces| == |values| + 1 && k < |pieces|
    decreases k
  {
    if k == 0 then 0
    else |pieces[0]| + |values[0]| + PieceStart(pieces[1..], values[1..], k - 1)
  }

  /** Where value k starts in the evaluated string: right after piece k. */
  function ValueStart(pieces: seq<string>, values: seq<string>, k: nat): nat
    requires |pieces| == |values| + 1 && k < |values|
  {
    PieceStart(pieces, values, k) + |pieces[k]|
  }

  /** The evaluated string opens with the first piece and the first value. */
  lemma {:induction false} FillOpening(pieces: seq<string>, values: seq<string>)
    requires |pieces| == |values| + 1 && |values| > 0
    ensures OccursAt(Fill(pieces, values), 0, pieces[0] + values[0])
  {
    OccursInConcat(pieces[0] + values[0], Fill(pieces[1..], values[1..]), "");
  }

  /** The evaluated string opens with the first piece. */
  lemma {:induction false} FillOpensWithPiece(pieces: seq<string>, values: seq<string>)
    requires |pieces| == |values| + 1
    ensures OccursAt(Fill(pieces, values), 0, pieces[0])
  {
    if |values| == 0 {
      OccursInConcat(pieces[0], "", "");
    } else {
      OccursInConcat(pieces[0], values[0], Fill(pieces[1..], values[1..]));
    }
  }

  /** From the start of piece k on, the evaluated string is the template cut at piece k. */
  lemma {:induction false} FillFrom(pieces: seq<string>, values: seq<string>, k: nat)
    requires |pieces| == |values| + 1 && k < |pieces|
    ensures PieceStart(pieces, values, k) <= |Fill(pieces, values)|
    ensures Fill(pieces, values)[PieceStart(pieces, values, k)..] == Fill(pieces[k..], values[k..])
  {
    if k > 0 {
      var head := pieces[0] + values[0];
      var tail := Fill(pieces[1..], values[1..]);
      FillFrom(pieces[1..], values[1..], k - 1);
      assert pieces[1..][k - 1..] == pieces[k..];
      assert values[1..][k - 1..] == values[k..];
      assert Fill(pieces, values) == head + tail;
      var j := PieceStart(pieces[1..], values[1..], k - 1);
      assert (head + tail)[|head| + j..] == tail[j..];
    }
  }

  /** Value k stands verbatim at its offset, with piece k right before it and piece k + 1
      right after it. */
  lemma {:induction false} ValueAt(pieces: seq<string>, values: seq<string>, k: nat)
    requires |pieces| == |values| + 1 && k < |values|
    ensures var f, p, q := Fill(pieces, values), ValueStart(pieces, values, k), PieceStart(pieces, values, k + 1);
      q == p + |values[k]| &&
      OccursAt(f, PieceStart(pieces, values, k), pieces[k]) &&
      OccursAt(f, p, values[k]) &&
      OccursAt(f, q, pieces[k + 1])
  {
    var f, s, p, q := Fill(pieces, values), PieceStart(pieces, values, k), ValueStart(pieces, values, k), PieceStart(pieces, values, k + 1);
    FillFrom(pieces, values, k);
    FillFrom(pieces, values, k + 1);
    assert pieces[k..][1..] == pieces[k + 1..];
    assert values[k..][1..] == values[k + 1..];
    var rest := Fill(pieces[k + 1..], values[k + 1..]);
    assert f[s..] == pieces[k] + values[k] + rest;
    OccursInConcat(pieces[k], values[k], rest);
    OccursShift(f, s, 0, pieces[k], s);
    OccursShift(f, s, |pieces[k]|, values[k], p);
    FillOpensWithPiece(pieces[k + 1..], values[k + 1..]);
    OccursShift(f, q, 0, pieces[k + 1], q);
  }

  /** The evaluated string ends with the last piece, which starts at its offset. */
  lemma {:induction false} FillEnd(pieces: seq<string>, values: seq<string>)
    requires |pieces| == |values| + 1
    ensures var f, n := Fill(pieces, values), |values|;
      |f| == PieceStart(pieces, values, n) + |pieces[n]| &&
      OccursAt(f, PieceStart(pieces, values, n), pieces[n])
  {
    var n := |values|;
    var f, s := Fill(pieces, values), PieceStart(pieces, values, n);
    FillFrom(pieces, values, n);
    assert pieces[n..] == [pieces[n]];
    assert values[n..] == [];
    OccursShift(f, s, 0, pieces[n], s);
  }

  /** Pieces appear in template order, none overlapping the next. */
  lemma {:induction false} PiecesInOrder(pieces: seq<string>, values: seq<string>, i: nat, j: nat)
    requires |pieces| == |values| + 1 && i < j < |pieces|
    ensures PieceStart(pieces, values, i) + |pieces[i]| <= PieceStart(pieces, values, j)
  {
    ValueAt(pieces, values, j - 1);
    if i < j - 1 {
      PiecesInOrder(pieces, values, i, j - 1);
    }
  }

  /** A value whose piece ends with a known ending: that ending stands right before the
      value. */
  lemma {:induction false} ValueAfter(pieces: seq<string>, values: seq<string>, k: nat, ending: string)
    requires |pieces| == |values| + 1 && k < |values| && EndsWith(pieces[k], ending)
    ensures |ending| <= ValueStart(pieces, values, k)
    ensures OccursAt(Fill(pieces, values), ValueStart(pieces, values, k) - |ending|, ending)
  {
    ValueAt(pieces, values, k);
    OccursEnding(Fill(pieces, values), PieceStart(pieces, values, k), pieces[k], ending, ValueStart(pieces, values, k) - |ending|);
  }

  /** A value followed by a piece that opens with the character `c`: the value and `c` stand
      at the value's offset. */
  lemma {:induction false} ValueThen(pieces: seq<string>, values: seq<string>, k: nat, c: char)
    requires |pieces| == |values| + 1 && k < |values|
    requires |pieces[k + 1]| > 0 && pieces[k + 1][0] == c
    ensures OccursAt(Fill(pieces, values), ValueStart(pieces, values, k), values[k] + [c])
  {
    var f, p, q := Fill(pieces, values), ValueStart(pieces, values, k), PieceStart(pieces, values, k + 1);
    ValueAt(pieces, values, k);
    OccursOpening(f, q, pieces[k + 1]);
    OccursConcat(f, p, values[k], q, [c]);
  }

  /** The evaluated string ends with the last value, preceded by a known ending of its piece
      and followed by the last piece. */
  lemma {:induction false} EndsWithLastValue(pieces: seq<string>, values: seq<string>, ending: string)
    requires |pieces| == |values| + 1 && |values| > 0 && EndsWith(pieces[|values| - 1], ending)
    ensures var n := |values|; EndsWith(Fill(pieces, values), ending + values[n - 1] + pieces[n])
  {
    var f, n := Fill(pieces, values), |values|;
    var k := n - 1;
    var p, q := ValueStart(pieces, values, k), PieceStart(pieces, values, n);
    ValueAt(pieces, values, k);
    assert k + 1 == n;
    assert q == p + |values[k]|;
    FillEnd(pieces, values);
    ValueAfter(pieces, values, k, ending);
    var e := ending + values[k];
    OccursConcat(f, p - |ending|, ending, p, values[k]);
    OccursConcat(f, p - |ending|, e, q, pieces[n]);
    assert |f| - |e + pieces[n]| == p - |ending|;
  }

  /** A value whose piece ends with `ending` and whose next piece opens with `c`: the three
      stand together at the value's offset less the ending. */
  lemma {:induction false} ValueBetween(pieces: seq<string>, values: seq<string>, k: nat, ending: string, c: char)
    requires |pieces| == |values| + 1 && k < |values| && EndsWith(pieces[k], ending)
    requires |pieces[k + 1]| > 0 && pieces[k + 1][0] == c
    ensures |ending| <= ValueStart(pieces, values, k)
    ensures OccursAt(Fill(pieces, values), ValueStart(pieces, values, k) - |ending|, ending + (values[k] + [c]))
  {
    ValueAfter(pieces, values, k, ending);
    ValueThen(pieces, values, k, c);
    OccursConcat(Fill(pieces, values), ValueStart(pieces, values, k) - |ending|, ending, ValueStart(pieces, values, k), values[k] + [c]);
  }

  /** A template with two interpolations holds its first piece, then everything up to the
      second value, then its last piece. */
  lemma {:induction false} PartsOfTwo(pieces: seq<string>, values: seq<string>)
    requires |pieces| == 3 && |values| == 2
    ensures var f, middle := Fill(pieces, values), values[0] + pieces[1] + values[1];
      |f| == |pieces[0]| + |middle| + |pieces[2]| &&
      OccursAt(f, 0, pieces[0]) &&
      OccursAt(f, |pieces[0]|, middle) &&
      OccursAt(f, |pieces[0]| + |middle|, pieces[2])
  {
    var f := Fill(pieces, values);
    FillOpensWithPiece(pieces, values);
    ValueAt(pieces, values, 0);
    ValueAt(pieces, values, 1);
    FillEnd(pieces, values);
    assert PieceStart(pieces, values, 0) == 0;
    var p1, p2 := PieceStart(pieces, values, 1), PieceStart(pieces, values, 2);
    OccursConcat(f, |pieces[0]|, values[0], p1, pieces[1]);
    OccursConcat(f, |pieces[0]|, values[0] + pieces[1], ValueStart(pieces, values, 1), values[1]);
    assert |pieces[0]| + |values[0] + pieces[1] + values[1]| == p2;
  }

  /** A template with two interpolations, written out. */
  lemma {:induction false} FillTwo(pieces: seq<string>, values: seq<string>)
    requires |pieces| == 3 && |values| == 2
    ensures Fill(pieces, values) == pieces[0] + values[0] + pieces[1] + values[1] + pieces[2]
  {
    var p1, v1 := pieces[1..], values[1..];
    assert Fill(p1[1..], v1[1..]) == pieces[2];
    assert Fill(p1, v1) == pieces[1] + values[1] + pieces[2];
  }
}
