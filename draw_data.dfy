/**
 * One frame of GUI output: a sequence of draw lists, each with its vertex
 * and index counts and its draw commands. The vertex and index contents are
 * not modelled, only how many there are; clip rectangles are the
 * already-scaled integer corners the toolkit hands over.
 */
module DrawData {

  /** A clip rectangle as two corners: (x, y) top-left, (z, w) bottom-right. */
  datatype ClipRect = ClipRect(x: int, y: int, z: int, w: int)

  /** One draw command: how many indices it draws, its clip and its texture id. */
  datatype DrawCmd = DrawCmd(elemCount: nat, clip: ClipRect, textureId: int)

  /** One draw list: sizes of its vertex and index batches and its commands. */
  datatype DrawList = DrawList(vtxCount: nat, idxCount: nat, cmds: seq<DrawCmd>)

  /** Sum of f over xs, taken from the last element so prefixes extend by one. */
  function SumOf<T>(xs: seq<T>, f: T -> nat): nat
  {
    if xs == [] then 0 else SumOf(xs[..|xs| - 1], f) + f(xs[|xs| - 1])
  }

  function VtxCountOf(l: DrawList): nat { l.vtxCount }
  function IdxCountOf(l: DrawList): nat { l.idxCount }
  function ElemCountOf(c: DrawCmd): nat { c.elemCount }
  function ListElemsOf(l: DrawList): nat { SumOf(l.cmds, ElemCountOf) }
  function CmdCountOf(l: DrawList): nat { |l.cmds| }

  /** The toolkit's total vertex count over a frame (or a prefix of one). */
  function TotalVtxCount(lists: seq<DrawList>): nat { SumOf(lists, VtxCountOf) }
  /** The toolkit's total index count. */
  function TotalIdxCount(lists: seq<DrawList>): nat { SumOf(lists, IdxCountOf) }
  /** Sum of the element counts of every command of every list. */
  function TotalElemCount(lists: seq<DrawList>): nat { SumOf(lists, ListElemsOf) }

  /**
   * The toolkit's own guarantee about a list: its commands consume its index
   * batch exactly, one command after another.
   */
  ghost predicate WellFormed(lists: seq<DrawList>)
  {
    forall i :: 0 <= i < |lists| ==> ListElemsOf(lists[i]) == lists[i].idxCount
  }

  lemma {:induction false} SumOfAppend<T>(xs: seq<T>, ys: seq<T>, f: T -> nat)
    ensures SumOf(xs + ys, f) == SumOf(xs, f) + SumOf(ys, f)
    decreases |ys|
  {
    if ys == [] {
      assert xs + ys == xs;
    } else {
      var n := |ys| - 1;
      assert (xs + ys)[..|xs + ys| - 1] == xs + ys[..n];
      SumOfAppend(xs, ys[..n], f);
    }
  }

  lemma SumOfSingleton<T>(x: T, f: T -> nat)
    ensures SumOf([x], f) == f(x)
  {
  }

  /** A prefix followed by the next element never sums past the whole. */
  lemma PrefixSumBound<T>(xs: seq<T>, i: nat, f: T -> nat)
    requires i < |xs|
    ensures SumOf(xs[..i], f) + f(xs[i]) == SumOf(xs[..i + 1], f) <= SumOf(xs, f)
  {
    assert xs[..i + 1][..i] == xs[..i];
    assert xs == xs[..i + 1] + xs[i + 1..];
    SumOfAppend(xs[..i + 1], xs[i + 1..], f);
  }

  /** In a well-formed frame every prefix's command elements equal its index count. */
  lemma {:induction false} WellFormedPrefixElems(lists: seq<DrawList>, i: nat)
    requires WellFormed(lists) && i <= |lists|
    ensures TotalElemCount(lists[..i]) == TotalIdxCount(lists[..i])
    decreases i
  {
    if i > 0 {
      assert lists[..i][..i - 1] == lists[..i - 1];
      WellFormedPrefixElems(lists, i - 1);
    }
  }
}
