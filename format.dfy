/** The two string helpers of the package, over arguments of any type. fmt's rendering of one
    value under a verb is a parameter: `verbV` for %v, `verbS` for %s and `verbF` for %f. */
module Format {

  const ACCESS_ARITY: nat := 5

  /** Print: the first argument under %v followed by one space, or "" when there is none. */
  function Print<V>(args: seq<V>, verbV: V -> string): (r: string)
    ensures r == "" <==> |args| == 0
    ensures |args| > 0 ==> r[..|r| - 1] == verbV(args[0]) && r[|r| - 1] == ' '
  {
    if |args| == 0 then "" else verbV(args[0]) + " "
  }

  /** The pieces of Printf's line, in order: the template's literal text alternating with the
      renderings of the first five arguments under %v, %v, %s, %s and %f. */
  function AccessLine<V>(args: seq<V>, verbV: V -> string, verbS: V -> string, verbF: V -> string)
    : seq<string>
    requires |args| >= ACCESS_ARITY
  {
    ["method: ", verbV(args[0]), ", statusCode: ", verbV(args[1]), ", req: ", verbS(args[2]),
     ", ip: ", verbS(args[3]), ", time: ", verbF(args[4]), "s"]
  }

  /** The pieces joined, first to last. */
  function Concat(parts: seq<string>): string {
    if parts == [] then "" else Concat(parts[..|parts| - 1]) + parts[|parts| - 1]
  }

  /** Where piece k starts in Concat(parts): the total length of the pieces before it. */
  function Offset(parts: seq<string>, k: nat): nat
    requires k <= |parts|
  {
    if k == 0 then 0 else Offset(parts, k - 1) + |parts[k - 1]|
  }

  /** Printf: an access-log line built from the first five arguments, or "" when there are
      fewer than five. */
  function Printf<V>(args: seq<V>, verbV: V -> string, verbS: V -> string, verbF: V -> string): (r: string)
    ensures r == "" <==> |args| < ACCESS_ARITY
  {
    if |args| < ACCESS_ARITY then ""
    else
      Concat(AccessLine(args, verbV, verbS, verbF))
  }

  /** Print looks at the first argument only. */
  lemma PrintUsesFirstOnly<V>(args: seq<V>, more: seq<V>, verbV: V -> string)
    requires |args| > 0
    ensures Print(args + more, verbV) == Print(args[..1], verbV)
  {
    assert (args + more)[0] == args[0];
  }

  /** Printf looks at the first five arguments only: two argument lists that agree there give
      the same line, whatever follows. */
  lemma PrintfUsesFirstFive<V>(args: seq<V>, other: seq<V>, verbV: V -> string, verbS: V -> string,
                               verbF: V -> string)
    requires |args| >= ACCESS_ARITY && |other| >= ACCESS_ARITY
    requires args[..ACCESS_ARITY] == other[..ACCESS_ARITY]
    ensures Printf(args, verbV, verbS, verbF) == Printf(other, verbV, verbS, verbF)
  {
    forall i | 0 <= i < ACCESS_ARITY
      ensures args[i] == other[i]
    {
      assert args[i] == args[..ACCESS_ARITY][i];
      assert other[i] == other[..ACCESS_ARITY][i];
    }
  }

  /** Printf's line is its pieces laid end to end: the template text, and each of the first
      five arguments rendered under its own verb at its place, with nothing in between. */
  lemma PrintfLine<V>(args: seq<V>, verbV: V -> string, verbS: V -> string, verbF: V -> string)
    requires |args| >= ACCESS_ARITY
    ensures var r := Printf(args, verbV, verbS, verbF);
            var line := AccessLine(args, verbV, verbS, verbF);
            var o := k requires 0 <= k <= 11 => Offset(line, k);
            o(0) <= o(1) <= o(2) <= o(3) <= o(4) <= o(5) <= o(6) <= o(7) <= o(8) <= o(9) <= o(10) <= o(11) &&
            |r| == o(11) &&
            r[..o(1)] == "method: " &&
            r[o(1)..o(2)] == verbV(args[0]) &&
            r[o(2)..o(3)] == ", statusCode: " &&
            r[o(3)..o(4)] == verbV(args[1]) &&
            r[o(4)..o(5)] == ", req: " &&
            r[o(5)..o(6)] == verbS(args[2]) &&
            r[o(6)..o(7)] == ", ip: " &&
            r[o(7)..o(8)] == verbS(args[3]) &&
            r[o(8)..o(9)] == ", time: " &&
            r[o(9)..o(10)] == verbF(args[4]) &&
            r[o(10)..] == "s"
  {
    var line := AccessLine(args, verbV, verbS, verbF);
    ConcatLength(line);
    PieceAt(line, 0); PieceAt(line, 1); PieceAt(line, 2); PieceAt(line, 3);
    PieceAt(line, 4); PieceAt(line, 5); PieceAt(line, 6); PieceAt(line, 7);
    PieceAt(line, 8); PieceAt(line, 9); PieceAt(line, 10);
  }

  /** The pieces fill the concatenation exactly. */
  lemma {:induction false} ConcatLength(parts: seq<string>)
    ensures |Concat(parts)| == Offset(parts, |parts|)
  {
    if parts != [] {
      var n := |parts| - 1;
      ConcatLength(parts[..n]);
      OffsetAgrees(parts[..n], parts, n);
    }
  }

  /** Piece k of a concatenation sits at its offset. */
  lemma {:induction false} PieceAt(parts: seq<string>, k: nat)
    requires k < |parts|
    ensures Offset(parts, k + 1) <= |Concat(parts)|
    ensures Concat(parts)[Offset(parts, k)..Offset(parts, k + 1)] == parts[k]
  {
    var n := |parts| - 1;
    var init := parts[..n];
    assert Concat(parts) == Concat(init) + parts[n];
    ConcatLength(init);
    OffsetAgrees(init, parts, n);
    if k < n {
      PieceAt(init, k);
      OffsetAgrees(init, parts, k);
      OffsetAgrees(init, parts, k + 1);
      SliceOfAppend(Concat(init), parts[n], Offset(parts, k), Offset(parts, k + 1));
    } else {
      assert Concat(parts)[|Concat(init)|..] == parts[n];
    }
  }

  lemma SliceOfAppend(a: string, b: string, i: nat, j: nat)
    requires i <= j <= |a|
    ensures (a + b)[i..j] == a[i..j]
  {
  }

  lemma {:induction false} OffsetAgrees(a: seq<string>, b: seq<string>, k: nat)
    requires k <= |a| && k <= |b|
    requires forall i :: 0 <= i < k ==> a[i] == b[i]
    ensures Offset(a, k) == Offset(b, k)
  {
    if k > 0 {
      OffsetAgrees(a, b, k - 1);
    }
  }
}
