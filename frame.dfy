/**
 * What one frame records into the caller's command buffer, as functions of
 * the draw data, the current buffers and the texture bindings. The renderer's
 * Render method is proved to record exactly FrameCommands; the lemmas here
 * say where each list's data is uploaded and where and with which offsets
 * each command is drawn.
 */
module Frame {
  import opened Resources
  import opened DrawData

  /** A scissor rectangle: top-left corner and size. */
  datatype Rect = Rect(x: int, y: int, width: int, height: int)

  /** One call recorded into the command buffer. */
  datatype Command =
    | UpdateBufferData(buffer: Buffer, list: nat, sizeInBytes: nat, offsetInBytes: nat)
    | UpdateProjection
    | BeginRenderPass
    | SetGraphicsPipelineState
    | SetVertexBuffers(buffers: seq<Buffer>)
    | SetIndexBuffer(buffer: Buffer)
    | SetResourceSet(resourceSet: Option<ResourceSet>, slot: nat)
    | SetScissorRectangles(rects: seq<Rect>)
    | DrawIndexed(indexCount: nat, startIndex: nat, baseVertex: nat)
    | EndRenderPass

  /** The scissor for a clip rectangle: same top-left corner, same bottom-right corner. */
  function ScissorOf(c: ClipRect): (r: Rect)
    ensures r.x == c.x && r.y == c.y
    ensures r.x + r.width == c.z && r.y + r.height == c.w
  {
    Rect(c.x, c.y, c.z - c.x, c.w - c.y)
  }

  /**
   * Texture binding for one command: nothing for the null id, the font set
   * for the font id, otherwise whatever the id index yields (None when the
   * id is not registered, which the renderer passes on unchecked).
   */
  function BindTexture(textureId: int, font: ResourceSet, byId: map<int, ResourceSetInfo>): seq<Command>
  {
    if textureId == NullTextureID then []
    else if textureId == FontAtlasID then [SetResourceSet(Some(font), 1)]
    else [SetResourceSet(Resolve(byId, textureId), 1)]
  }

  /** One indexed draw of the frame: the command and the running offsets it is drawn at. */
  datatype DrawCall = DrawCall(cmd: DrawCmd, indexOffset: nat, vertexOffset: nat)

  /** The draws for one list's commands, the index offset advancing per command. */
  function ListPlan(cmds: seq<DrawCmd>, indexStart: nat, vertexOffset: nat): seq<DrawCall>
  {
    if cmds == [] then []
    else
      var n := |cmds| - 1;
      ListPlan(cmds[..n], indexStart, vertexOffset)
      + [DrawCall(cmds[n], indexStart + SumOf(cmds[..n], ElemCountOf), vertexOffset)]
  }

  /** The draws of a frame in list-then-command order; the vertex offset advances per list. */
  function DrawPlan(lists: seq<DrawList>): seq<DrawCall>
  {
    if lists == [] then []
    else
      var n := |lists| - 1;
      DrawPlan(lists[..n]) + ListPlan(lists[n].cmds, TotalElemCount(lists[..n]), TotalVtxCount(lists[..n]))
  }

  /** The calls recorded for one draw: scissor, texture binding, indexed draw. */
  function IssueDraw(d: DrawCall, font: ResourceSet, byId: map<int, ResourceSetInfo>): seq<Command>
  {
    [SetScissorRectangles([ScissorOf(d.cmd.clip)])]
    + BindTexture(d.cmd.textureId, font, byId)
    + [DrawIndexed(d.cmd.elemCount, d.indexOffset, d.vertexOffset)]
  }

  /** The calls recorded for a run of draws, in order. */
  function IssueAll(plan: seq<DrawCall>, font: ResourceSet, byId: map<int, ResourceSetInfo>): seq<Command>
  {
    if plan == [] then []
    else
      var n := |plan| - 1;
      IssueAll(plan[..n], font, byId) + IssueDraw(plan[n], font, byId)
  }

  /** The uploads of a frame: per list, its vertices then its indices, at running byte offsets. */
  function UploadCommands(lists: seq<DrawList>, vb: Buffer, ib: Buffer): seq<Command>
  {
    if lists == [] then []
    else
      var n := |lists| - 1;
      UploadCommands(lists[..n], vb, ib)
      + [UpdateBufferData(vb, n, lists[n].vtxCount * VertexSize, TotalVtxCount(lists[..n]) * VertexSize),
         UpdateBufferData(ib, n, lists[n].idxCount * IndexSize, TotalIdxCount(lists[..n]) * IndexSize)]
  }

  /** The calls of the binding prologue between upload and drawing. */
  function Prologue(vb: Buffer, ib: Buffer, constants: ResourceSet): seq<Command>
  {
    [UpdateProjection, BeginRenderPass, SetGraphicsPipelineState,
     SetVertexBuffers([vb]), SetIndexBuffer(ib), SetResourceSet(Some(constants), 0)]
  }

  /**
   * The scissor rectangle the draw loop leaves in the renderer's scissor
   * array: that of the frame's last command, or None for a frame without
   * commands (the array is then not written).
   */
  function FinalScissor(lists: seq<DrawList>): Option<Rect>
  {
    if lists == [] then None
    else
      var cmds := lists[|lists| - 1].cmds;
      if cmds == [] then FinalScissor(lists[..|lists| - 1])
      else Some(ScissorOf(cmds[|cmds| - 1].clip))
  }

  /** Everything a non-empty frame records. */
  function FrameCommands(lists: seq<DrawList>, vb: Buffer, ib: Buffer, constants: ResourceSet,
                         font: ResourceSet, byId: map<int, ResourceSetInfo>): seq<Command>
  {
    UploadCommands(lists, vb, ib) + Prologue(vb, ib, constants)
    + IssueAll(DrawPlan(lists), font, byId) + [EndRenderPass]
  }

  // ---------------------------------------------------------------------
  // Uploads

  /** List i's vertices go at byte offset (sum of earlier vertex counts) * 20, its indices at (sum of earlier index counts) * 2. */
  lemma {:induction false} UploadAt(lists: seq<DrawList>, vb: Buffer, ib: Buffer, i: nat)
    requires i < |lists|
    ensures |UploadCommands(lists, vb, ib)| == 2 * |lists|
    ensures UploadCommands(lists, vb, ib)[2 * i]
         == UpdateBufferData(vb, i, lists[i].vtxCount * VertexSize, TotalVtxCount(lists[..i]) * VertexSize)
    ensures UploadCommands(lists, vb, ib)[2 * i + 1]
         == UpdateBufferData(ib, i, lists[i].idxCount * IndexSize, TotalIdxCount(lists[..i]) * IndexSize)
    decreases |lists|
  {
    var n := |lists| - 1;
    if i < n {
      assert lists[..n][i] == lists[i] && lists[..n][..i] == lists[..i];
      UploadAt(lists[..n], vb, ib, i);
    } else if n > 0 {
      UploadAt(lists[..n], vb, ib, 0);
    }
  }

  /** Every upload lies inside the buffer it writes when the buffers hold the frame's totals. */
  lemma {:induction false} UploadsFit(lists: seq<DrawList>, vb: Buffer, ib: Buffer)
    requires TotalVtxCount(lists) * VertexSize <= vb.sizeInBytes
    requires TotalIdxCount(lists) * IndexSize <= ib.sizeInBytes
    ensures forall k :: 0 <= k < |UploadCommands(lists, vb, ib)| ==>
      var u := UploadCommands(lists, vb, ib)[k];
      u.UpdateBufferData? && u.offsetInBytes + u.sizeInBytes <= u.buffer.sizeInBytes
  {
    var us := UploadCommands(lists, vb, ib);
    forall k | 0 <= k < |us|
      ensures us[k].UpdateBufferData? && us[k].offsetInBytes + us[k].sizeInBytes <= us[k].buffer.sizeInBytes
    {
      assert lists != [];
      UploadAt(lists, vb, ib, 0);
      var i := k / 2;
      UploadAt(lists, vb, ib, i);
      PrefixSumBound(lists, i, VtxCountOf);
      PrefixSumBound(lists, i, IdxCountOf);
      assert (TotalVtxCount(lists[..i]) + lists[i].vtxCount) * VertexSize <= vb.sizeInBytes;
      assert (TotalIdxCount(lists[..i]) + lists[i].idxCount) * IndexSize <= ib.sizeInBytes;
    }
  }

  // ---------------------------------------------------------------------
  // Drawing

  /** Command j of a list is the list's j-th draw, at the start offset plus the elements of the commands before it. */
  lemma {:induction false} ListPlanAt(cmds: seq<DrawCmd>, indexStart: nat, vertexOffset: nat, j: nat)
    requires j < |cmds|
    ensures |ListPlan(cmds, indexStart, vertexOffset)| == |cmds|
    ensures ListPlan(cmds, indexStart, vertexOffset)[j]
         == DrawCall(cmds[j], indexStart + SumOf(cmds[..j], ElemCountOf), vertexOffset)
    decreases |cmds|
  {
    var n := |cmds| - 1;
    if j < n {
      assert cmds[..n][j] == cmds[j] && cmds[..n][..j] == cmds[..j];
      ListPlanAt(cmds[..n], indexStart, vertexOffset, j);
    } else if n > 0 {
      ListPlanAt(cmds[..n], indexStart, vertexOffset, 0);
    }
  }

  /**
   * Command j of list i is draw number (commands of earlier lists) + j of
   * the frame, so draws follow list order and then command order; its index
   * offset is the element count of every command before it and its vertex
   * offset the vertex count of every list before its own.
   */
  lemma {:induction false} DrawPlanAt(lists: seq<DrawList>, i: nat, j: nat)
    requires i < |lists| && j < |lists[i].cmds|
    ensures |DrawPlan(lists)| == SumOf(lists, CmdCountOf)
    ensures SumOf(lists[..i], CmdCountOf) + j < |DrawPlan(lists)|
    ensures DrawPlan(lists)[SumOf(lists[..i], CmdCountOf) + j]
         == DrawCall(lists[i].cmds[j],
                     TotalElemCount(lists[..i]) + SumOf(lists[i].cmds[..j], ElemCountOf),
                     TotalVtxCount(lists[..i]))
    decreases |lists|
  {
    var n := |lists| - 1;
    var prefix := lists[..n];
    var done := DrawPlan(prefix);
    var last := ListPlan(lists[n].cmds, TotalElemCount(prefix), TotalVtxCount(prefix));
    assert DrawPlan(lists) == done + last;
    DrawPlanLength(lists);
    PrefixSumBound(lists, i, CmdCountOf);
    var p := SumOf(lists[..i], CmdCountOf) + j;
    if i < n {
      assert prefix[i] == lists[i] && prefix[..i] == lists[..i];
      DrawPlanAt(prefix, i, j);
      assert (done + last)[p] == done[p];
    } else {
      assert lists[..i] == prefix;
      DrawPlanLength(prefix);
      assert p == |done| + j;
      ListPlanAt(lists[n].cmds, TotalElemCount(prefix), TotalVtxCount(prefix), j);
      assert (done + last)[p] == last[j];
    }
  }

  /**
   * The scissor the draw loop leaves behind is that of the frame's last
   * draw, and there is one exactly when the frame draws anything.
   */
  lemma {:induction false} FinalScissorIsLastDraw(lists: seq<DrawList>)
    ensures FinalScissor(lists).Some? <==> DrawPlan(lists) != []
    ensures DrawPlan(lists) != [] ==>
      FinalScissor(lists).value == ScissorOf(DrawPlan(lists)[|DrawPlan(lists)| - 1].cmd.clip)
    decreases |lists|
  {
    if lists != [] {
      var n := |lists| - 1;
      var done := DrawPlan(lists[..n]);
      var cmds := lists[n].cmds;
      var last := ListPlan(cmds, TotalElemCount(lists[..n]), TotalVtxCount(lists[..n]));
      assert DrawPlan(lists) == done + last;
      if cmds == [] {
        assert last == [];
        assert done + last == done;
        FinalScissorIsLastDraw(lists[..n]);
      } else {
        ListPlanAt(cmds, TotalElemCount(lists[..n]), TotalVtxCount(lists[..n]), |cmds| - 1);
        assert (done + last)[|done + last| - 1] == last[|last| - 1];
      }
    }
  }

  lemma {:induction false} DrawPlanLength(lists: seq<DrawList>)
    ensures |DrawPlan(lists)| == SumOf(lists, CmdCountOf)
    decreases |lists|
  {
    if lists != [] {
      var n := |lists| - 1;
      DrawPlanLength(lists[..n]);
      if lists[n].cmds != [] {
        ListPlanAt(lists[n].cmds, TotalElemCount(lists[..n]), TotalVtxCount(lists[..n]), 0);
      }
    }
  }

  lemma {:induction false} IssueAllAppend(a: seq<DrawCall>, b: seq<DrawCall>, font: ResourceSet, byId: map<int, ResourceSetInfo>)
    ensures IssueAll(a + b, font, byId) == IssueAll(a, font, byId) + IssueAll(b, font, byId)
    decreases |b|
  {
    if b == [] {
      assert a + b == a;
    } else {
      var n := |b| - 1;
      assert a + b == (a + b[..n]) + [b[n]];
      IssueAllAppend(a, b[..n], font, byId);
      IssueAllStep(a + b[..n], b[n], font, byId);
      assert IssueAll(b, font, byId) == IssueAll(b[..n], font, byId) + IssueDraw(b[n], font, byId);
      ConcatAssoc(IssueAll(a, font, byId), IssueAll(b[..n], font, byId), IssueDraw(b[n], font, byId));
    }
  }

  lemma ConcatAssoc<T>(x: seq<T>, y: seq<T>, z: seq<T>)
    ensures (x + y) + z == x + (y + z)
  {
  }

  /** The calls of draw p sit between those of the draws before it and those after it. */
  lemma IssueDrawInOrder(plan: seq<DrawCall>, p: nat, font: ResourceSet, byId: map<int, ResourceSetInfo>)
    requires p < |plan|
    ensures IssueAll(plan, font, byId)
         == IssueAll(plan[..p], font, byId) + IssueDraw(plan[p], font, byId) + IssueAll(plan[p + 1..], font, byId)
  {
    assert plan == plan[..p] + [plan[p]] + plan[p + 1..];
    IssueAllAppend(plan[..p] + [plan[p]], plan[p + 1..], font, byId);
    IssueAllAppend(plan[..p], [plan[p]], font, byId);
    assert [plan[p]][..0] == [];
  }

  /**
   * In a well-formed frame each draw reads only what its own list uploaded:
   * its index range lies inside list i's index batch and its vertex offset
   * is where list i's vertices were written.
   */
  lemma DrawReadsOwnList(lists: seq<DrawList>, i: nat, j: nat)
    requires WellFormed(lists) && i < |lists| && j < |lists[i].cmds|
    ensures
      var p := SumOf(lists[..i], CmdCountOf) + j;
      && p < |DrawPlan(lists)|
      && var d := DrawPlan(lists)[p];
      && TotalIdxCount(lists[..i]) <= d.indexOffset
      && d.indexOffset + d.cmd.elemCount <= TotalIdxCount(lists[..i]) + lists[i].idxCount
      && TotalIdxCount(lists[..i]) + lists[i].idxCount <= TotalIdxCount(lists)
      && d.vertexOffset == TotalVtxCount(lists[..i])
      && d.vertexOffset + lists[i].vtxCount <= TotalVtxCount(lists)
  {
    DrawPlanAt(lists, i, j);
    WellFormedPrefixElems(lists, i);
    PrefixSumBound(lists[i].cmds, j, ElemCountOf);
    PrefixSumBound(lists, i, IdxCountOf);
    PrefixSumBound(lists, i, VtxCountOf);
  }

  /** Two lists of one command each: list order, offsets 0 then the sizes of the first list. */
  lemma TwoListsDrawInOrder(c1: DrawCmd, c2: DrawCmd, v1: nat, i1: nat, v2: nat, i2: nat)
    ensures DrawPlan([DrawList(v1, i1, [c1]), DrawList(v2, i2, [c2])])
         == [DrawCall(c1, 0, 0), DrawCall(c2, c1.elemCount, v1)]
  {
    var l1, l2 := DrawList(v1, i1, [c1]), DrawList(v2, i2, [c2]);
    assert [l1, l2][..1] == [l1] && [l1][..0] == [];
    assert [c1][..0] == [] && [c2][..0] == [];
    SumOfSingleton(c1, ElemCountOf);
    SumOfSingleton(l1, ListElemsOf);
    SumOfSingleton(l1, VtxCountOf);
    assert TotalElemCount([l1]) == c1.elemCount && TotalVtxCount([l1]) == v1;
    assert ListPlan([c1], 0, 0) == [DrawCall(c1, 0, 0)];
    assert DrawPlan([l1]) == DrawPlan([]) + ListPlan([c1], TotalElemCount([]), TotalVtxCount([]));
    assert ListPlan([c2], c1.elemCount, v1) == [DrawCall(c2, c1.elemCount, v1)];
  }

  // ---------------------------------------------------------------------
  // One step of the draw loops

  lemma ListPlanStep(cmds: seq<DrawCmd>, j: nat, indexStart: nat, vertexOffset: nat, indexOffset: nat)
    requires j < |cmds| && indexOffset == indexStart + SumOf(cmds[..j], ElemCountOf)
    ensures ListPlan(cmds[..j + 1], indexStart, vertexOffset)
         == ListPlan(cmds[..j], indexStart, vertexOffset) + [DrawCall(cmds[j], indexOffset, vertexOffset)]
  {
    assert cmds[..j + 1][..j] == cmds[..j];
  }

  lemma DrawPlanStep(lists: seq<DrawList>, i: nat)
    requires i < |lists|
    ensures DrawPlan(lists[..i + 1])
         == DrawPlan(lists[..i]) + ListPlan(lists[i].cmds, TotalElemCount(lists[..i]), TotalVtxCount(lists[..i]))
    ensures TotalElemCount(lists[..i + 1]) == TotalElemCount(lists[..i]) + SumOf(lists[i].cmds, ElemCountOf)
    ensures TotalVtxCount(lists[..i + 1]) == TotalVtxCount(lists[..i]) + lists[i].vtxCount
  {
    assert lists[..i + 1][..i] == lists[..i];
  }

  lemma FinalScissorStep(lists: seq<DrawList>, i: nat)
    requires i < |lists|
    ensures FinalScissor(lists[..i + 1])
         == if lists[i].cmds == [] then FinalScissor(lists[..i])
            else Some(ScissorOf(lists[i].cmds[|lists[i].cmds| - 1].clip))
  {
    assert lists[..i + 1][..i] == lists[..i];
  }

  lemma IssueAllStep(plan: seq<DrawCall>, d: DrawCall, font: ResourceSet, byId: map<int, ResourceSetInfo>)
    ensures IssueAll(plan + [d], font, byId) == IssueAll(plan, font, byId) + IssueDraw(d, font, byId)
  {
  }
}
