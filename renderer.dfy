/**
 * The GUI renderer: a texture-binding registry (two indexes over the same
 * entries and an id counter), two growable GPU buffers, and the per-frame
 * Render that uploads the draw data and translates each draw command into
 * calls on the caller's command buffer. The backend factory is modelled by
 * serial counters (a created object takes the next serial) and the sets of
 * objects that have been disposed; the command buffer by the sequence of
 * calls Render returns.
 */
module Renderer {
  import opened Resources
  import opened DrawData
  import opened Frame
  import PowerOfTwo
  import Registry

  /**
   * What resizing did to the two buffers: each has the capacity GrowTo
   * gives; a kept buffer is the old one, a replaced one is new (its serial
   * was not yet handed out) and the old one is disposed; nothing else is.
   */
  ghost predicate Resized(oldVertex: Buffer, vertex: Buffer, vertexBytes: nat,
                          oldIndex: Buffer, index: Buffer, indexBytes: nat,
                          oldSerial: nat, oldDisposed: set<Buffer>, disposed: set<Buffer>)
  {
    && vertex.sizeInBytes == GrowTo(oldVertex.sizeInBytes, vertexBytes)
    && index.sizeInBytes == GrowTo(oldIndex.sizeInBytes, indexBytes)
    && (vertex == oldVertex <==> vertexBytes <= oldVertex.sizeInBytes)
    && (index == oldIndex <==> indexBytes <= oldIndex.sizeInBytes)
    && (vertex != oldVertex ==> oldSerial <= vertex.serial)
    && (index != oldIndex ==> oldSerial <= index.serial)
    && disposed == oldDisposed
         + (if vertex == oldVertex then {} else {oldVertex})
         + (if index == oldIndex then {} else {oldIndex})
  }

  class ImGuiRenderer {
    var vertexBuffer: Buffer
    var indexBuffer: Buffer
    /** The vertex-buffer slots bound at draw time; slot 0 must be the current vertex buffer. */
    const vertexBuffers: array<Buffer>
    /** The one scissor rectangle handed to the command buffer. */
    const scissors: array<Rect>
    /** Projection constants and sampler, bound at slot 0. */
    const resourceSet: ResourceSet
    /** The font atlas texture, bound at slot 1 for the reserved font id. */
    const fontResourceSet: ResourceSet

    var resourceByTexture: map<Texture, ResourceSetInfo>
    var resourceById: map<int, ResourceSetInfo>
    /** The next id to hand out. */
    var lastAssignedID: int

    /** Serial the backend factory gives to the next buffer it creates. */
    var nextBufferSerial: nat
    /** Serial the backend factory gives to the next resource set it creates. */
    var nextSetSerial: nat
    var disposedBuffers: set<Buffer>
    var disposedSets: set<ResourceSet>

    /** Every id ever handed out, including those of removed textures. */
    ghost var Issued: set<int>
    /** For each registered id, the texture it was handed out for. */
    ghost var Owner: map<int, Texture>
    /** For each registered resource set, the texture it binds. */
    ghost var SetOwner: map<ResourceSet, Texture>

    ghost predicate Valid()
      reads this, vertexBuffers
    {
      && vertexBuffers.Length == 1 && vertexBuffers[0] == vertexBuffer
      && scissors.Length == 1
      && BackendValid()
      && RegistryValid()
    }

    /** The renderer's two buffers were created by the factory, have their roles and are live. */
    ghost predicate BackendValid()
      reads this`vertexBuffer, this`indexBuffer, this`nextBufferSerial, this`disposedBuffers
    {
      && vertexBuffer.kind == VertexBuffer && indexBuffer.kind == IndexBuffer
      && vertexBuffer.serial < nextBufferSerial && indexBuffer.serial < nextBufferSerial
      && vertexBuffer !in disposedBuffers && indexBuffer !in disposedBuffers
      && (forall b :: b in disposedBuffers ==> b.serial < nextBufferSerial)
    }

    /** The registry invariant over the current field values. */
    ghost predicate RegistryValid()
      reads this`resourceByTexture, this`resourceById, this`lastAssignedID, this`Issued, this`Owner,
            this`SetOwner, this`nextSetSerial, this`disposedSets
    {
      Registry.Invariant(resourceByTexture, resourceById, lastAssignedID, Issued, Owner, SetOwner,
                         nextSetSerial, disposedSets, {resourceSet, fontResourceSet})
    }

    /** Initial state: the two buffers at their initial capacities and an empty registry. */
    constructor ()
      ensures Valid() && fresh(vertexBuffers) && fresh(scissors)
      ensures vertexBuffer.sizeInBytes == InitialVertexCapacity
      ensures indexBuffer.sizeInBytes == InitialIndexCapacity
      ensures resourceByTexture == map[] && resourceById == map[]
      ensures lastAssignedID == FirstDynamicID && Issued == {}
      ensures disposedBuffers == {} && disposedSets == {}
    {
      var vb := Buffer(0, VertexBuffer, InitialVertexCapacity);
      vertexBuffer := vb;
      vertexBuffers := new Buffer[1](_ => vb);
      indexBuffer := Buffer(1, IndexBuffer, InitialIndexCapacity);
      nextBufferSerial := 2;
      resourceSet := ResourceSet(0);
      fontResourceSet := ResourceSet(1);
      nextSetSerial := 2;
      scissors := new Rect[1];
      resourceByTexture := map[];
      resourceById := map[];
      lastAssignedID := FirstDynamicID;
      Owner := map[];
      SetOwner := map[];
      disposedBuffers := {};
      disposedSets := {};
      Issued := {};
    }

    /** Hands out the counter's value and advances it (a post-increment). */
    method GetNextImGuiBindingID() returns (id: int)
      requires forall x :: x in Issued ==> x < lastAssignedID
      modifies this`lastAssignedID, this`Issued
      ensures forall x :: x in Issued ==> x < lastAssignedID
      ensures id == old(lastAssignedID) && lastAssignedID == id + 1
      ensures id !in old(Issued) && Issued == old(Issued) + {id}
    {
      id := lastAssignedID;
      lastAssignedID := lastAssignedID + 1;
      Issued := Issued + {id};
    }

    /**
     * Draw-time lookup of a texture id: it yields a resource set exactly when
     * a registered texture holds the id, and then that texture's live set.
     */
    function GetImageResourceSet(id: int): (r: Option<ResourceSet>)
      requires RegistryValid()
      reads this`resourceByTexture, this`resourceById, this`lastAssignedID, this`Issued, this`Owner,
            this`SetOwner, this`nextSetSerial, this`disposedSets
      ensures r.Some? <==> id in resourceById
      ensures r.Some? <==> exists t :: t in resourceByTexture && resourceByTexture[t].imGuiBinding == id
      ensures r.Some? ==>
        && r.value == resourceById[id].resourceSet
        && id in Issued && FirstDynamicID <= id < lastAssignedID
        && r.value !in disposedSets && r.value != fontResourceSet && r.value != resourceSet
    {
      Registry.ResolveMeansRegistered(resourceByTexture, resourceById, lastAssignedID, Issued, Owner, SetOwner,
                                      nextSetSerial, disposedSets, {resourceSet, fontResourceSet}, id);
      Resolve(resourceById, id)
    }

    /**
     * The id of a texture's binding, registering the texture under the next
     * id with a new resource set on first use; a registered texture gets its
     * stored id back and nothing changes.
     */
    method GetOrCreateImGuiBinding(texture: Texture) returns (id: int)
      requires RegistryValid()
      modifies this`resourceByTexture, this`resourceById, this`lastAssignedID, this`nextSetSerial,
               this`Issued, this`Owner, this`SetOwner
      ensures RegistryValid()
      ensures FirstDynamicID <= id && id != FontAtlasID && id != NullTextureID
      ensures texture in resourceByTexture && resourceByTexture[texture].imGuiBinding == id
      ensures texture in old(resourceByTexture) ==>
        && id == old(resourceByTexture[texture].imGuiBinding)
        && resourceByTexture == old(resourceByTexture) && resourceById == old(resourceById)
        && lastAssignedID == old(lastAssignedID) && nextSetSerial == old(nextSetSerial) && Issued == old(Issued)
      ensures texture !in old(resourceByTexture) ==>
        && id == old(lastAssignedID) && lastAssignedID == old(lastAssignedID) + 1
        && id !in old(Issued) && id !in old(resourceById) && Issued == old(Issued) + {id}
        && nextSetSerial == old(nextSetSerial) + 1
        && var info := ResourceSetInfo(id, ResourceSet(old(nextSetSerial)));
           && resourceByTexture == old(resourceByTexture)[texture := info]
           && resourceById == old(resourceById)[id := info]
    {
      if texture in resourceByTexture {
        id := resourceByTexture[texture].imGuiBinding;
      } else {
        var byTexture, byId := resourceByTexture, resourceById;
        ghost var last, issued, owner, setOwner, serial := lastAssignedID, Issued, Owner, SetOwner, nextSetSerial;
        // The factory creates the texture's resource set under its next serial.
        var newResourceSet := ResourceSet(nextSetSerial);
        nextSetSerial := nextSetSerial + 1;
        var newId := GetNextImGuiBindingID();
        var info := ResourceSetInfo(newId, newResourceSet);
        resourceByTexture := byTexture[texture := info];
        resourceById := byId[newId := info];
        Owner := owner[newId := texture];
        SetOwner := setOwner[newResourceSet := texture];
        // Neither dictionary insertion meets an existing key, and the registry stays consistent.
        assert newId !in byId && RegistryValid() by {
          Registry.AddKeepsInvariant(byTexture, byId, last, issued, owner, setOwner,
                                     serial, disposedSets, {resourceSet, fontResourceSet}, texture);
        }
        id := newId;
      }
    }

    /**
     * Forgets a texture: both index entries go and its resource set is
     * disposed; an unregistered texture changes nothing.
     */
    method RemoveImGuiBinding(texture: Texture)
      requires RegistryValid()
      modifies this`resourceByTexture, this`resourceById, this`disposedSets, this`Owner, this`SetOwner
      ensures RegistryValid()
      ensures texture !in resourceByTexture
      ensures texture in old(resourceByTexture) ==>
        var info := old(resourceByTexture[texture]);
        && info.resourceSet !in old(disposedSets)
        && resourceByTexture == old(resourceByTexture) - {texture}
        && resourceById == old(resourceById) - {info.imGuiBinding}
        && info.imGuiBinding !in resourceById
        && disposedSets == old(disposedSets) + {info.resourceSet}
      ensures texture !in old(resourceByTexture) ==>
        resourceByTexture == old(resourceByTexture) && resourceById == old(resourceById)
        && disposedSets == old(disposedSets)
    {
      if texture in resourceByTexture {
        var info := resourceByTexture[texture];
        Registry.RemoveKeepsInvariant(resourceByTexture, resourceById, lastAssignedID, Issued, Owner, SetOwner,
                                      nextSetSerial, disposedSets, {resourceSet, fontResourceSet}, texture);
        resourceByTexture := resourceByTexture - {texture};
        resourceById := resourceById - {info.imGuiBinding};
        disposedSets := disposedSets + {info.resourceSet};
        Owner := Owner - {info.imGuiBinding};
        SetOwner := SetOwner - {info.resourceSet};
      }
    }

    /**
     * One frame. No lists: nothing happens. Otherwise the buffers are resized
     * for the frame, every list is uploaded and every command is drawn; the
     * calls recorded are exactly FrameCommands for the buffers in use.
     */
    method Render(lists: seq<DrawList>) returns (cmds: seq<Command>)
      requires Valid()
      modifies this`vertexBuffer, this`indexBuffer, this`nextBufferSerial, this`disposedBuffers
      modifies vertexBuffers, scissors
      ensures Valid()
      ensures lists == [] ==>
        && cmds == []
        && vertexBuffer == old(vertexBuffer) && indexBuffer == old(indexBuffer)
        && nextBufferSerial == old(nextBufferSerial) && disposedBuffers == old(disposedBuffers)
        && unchanged(vertexBuffers, scissors)
      ensures lists != [] ==>
        && Resized(old(vertexBuffer), vertexBuffer, TotalVtxCount(lists) * VertexSize,
                   old(indexBuffer), indexBuffer, TotalIdxCount(lists) * IndexSize,
                   old(nextBufferSerial), old(disposedBuffers), disposedBuffers)
        && cmds == FrameCommands(lists, vertexBuffer, indexBuffer, resourceSet, fontResourceSet, resourceById)
      ensures FinalScissor(lists) == None ==> unchanged(scissors)
      ensures FinalScissor(lists).Some? ==> scissors[0] == FinalScissor(lists).value
    {
      if lists == [] {
        return [];
      }
      ResizeBuffers(TotalVtxCount(lists) * VertexSize, TotalIdxCount(lists) * IndexSize);
      var uploads := UploadFrame(lists);
      var prologue := Prologue(vertexBuffer, indexBuffer, resourceSet);
      var draws := DrawFrame(lists);
      cmds := uploads + prologue + draws + [EndRenderPass];
    }

    /**
     * The vertex buffer, then the index buffer, each kept when it holds the
     * required bytes and otherwise disposed and replaced by a new buffer of
     * the next power-of-two size.
     */
    method ResizeBuffers(vertexBytes: nat, indexBytes: nat)
      requires Valid()
      modifies this`vertexBuffer, this`indexBuffer, this`nextBufferSerial, this`disposedBuffers, vertexBuffers
      ensures Valid()
      ensures Resized(old(vertexBuffer), vertexBuffer, vertexBytes, old(indexBuffer), indexBuffer, indexBytes,
                      old(nextBufferSerial), old(disposedBuffers), disposedBuffers)
    {
      GrowVertexBuffer(vertexBytes);
      GrowIndexBuffer(indexBytes);
    }

    /** A vertex buffer smaller than `required` bytes is disposed and replaced by one of the next power-of-two size. */
    method GrowVertexBuffer(required: nat)
      requires Valid()
      modifies this`vertexBuffer, this`nextBufferSerial, this`disposedBuffers, vertexBuffers
      ensures Valid()
      ensures vertexBuffer.sizeInBytes == GrowTo(old(vertexBuffer.sizeInBytes), required)
      ensures vertexBuffer == old(vertexBuffer) <==> required <= old(vertexBuffer.sizeInBytes)
      ensures vertexBuffer == old(vertexBuffer) ==>
        nextBufferSerial == old(nextBufferSerial) && disposedBuffers == old(disposedBuffers)
      ensures vertexBuffer != old(vertexBuffer) ==>
        && vertexBuffer.serial == old(nextBufferSerial) && nextBufferSerial == old(nextBufferSerial) + 1
        && disposedBuffers == old(disposedBuffers) + {old(vertexBuffer)}
    {
      if required > vertexBuffer.sizeInBytes {
        disposedBuffers := disposedBuffers + {vertexBuffer};
        var nextSize := PowerOfTwo.NextPowerOfTwo(required);
        vertexBuffer := Buffer(nextBufferSerial, VertexBuffer, nextSize);
        nextBufferSerial := nextBufferSerial + 1;
        vertexBuffers[0] := vertexBuffer;
      }
    }

    /** The same policy for the index buffer. */
    method GrowIndexBuffer(required: nat)
      requires Valid()
      modifies this`indexBuffer, this`nextBufferSerial, this`disposedBuffers
      ensures Valid()
      ensures indexBuffer.sizeInBytes == GrowTo(old(indexBuffer.sizeInBytes), required)
      ensures indexBuffer == old(indexBuffer) <==> required <= old(indexBuffer.sizeInBytes)
      ensures indexBuffer == old(indexBuffer) ==>
        nextBufferSerial == old(nextBufferSerial) && disposedBuffers == old(disposedBuffers)
      ensures indexBuffer != old(indexBuffer) ==>
        && indexBuffer.serial == old(nextBufferSerial) && nextBufferSerial == old(nextBufferSerial) + 1
        && disposedBuffers == old(disposedBuffers) + {old(indexBuffer)}
    {
      if required > indexBuffer.sizeInBytes {
        disposedBuffers := disposedBuffers + {indexBuffer};
        var nextSize := PowerOfTwo.NextPowerOfTwo(required);
        indexBuffer := Buffer(nextBufferSerial, IndexBuffer, nextSize);
        nextBufferSerial := nextBufferSerial + 1;
      }
    }

    /** Uploads every list's vertices and indices at the running offsets. */
    method UploadFrame(lists: seq<DrawList>) returns (cmds: seq<Command>)
      ensures cmds == UploadCommands(lists, vertexBuffer, indexBuffer)
    {
      cmds := [];
      var vertexOffset: nat := 0;
      var indexOffset: nat := 0;
      var i := 0;
      while i < |lists|
        invariant 0 <= i <= |lists|
        invariant vertexOffset == TotalVtxCount(lists[..i]) && indexOffset == TotalIdxCount(lists[..i])
        invariant cmds == UploadCommands(lists[..i], vertexBuffer, indexBuffer)
      {
        var cmdList := lists[i];
        assert lists[..i + 1][..i] == lists[..i];
        cmds := cmds + [UpdateBufferData(vertexBuffer, i, cmdList.vtxCount * VertexSize, vertexOffset * VertexSize),
                        UpdateBufferData(indexBuffer, i, cmdList.idxCount * IndexSize, indexOffset * IndexSize)];
        vertexOffset := vertexOffset + cmdList.vtxCount;
        indexOffset := indexOffset + cmdList.idxCount;
        i := i + 1;
      }
      assert lists[..i] == lists;
    }

    /** Draws every command of every list, list after list; the vertex offset advances per list. */
    method DrawFrame(lists: seq<DrawList>) returns (cmds: seq<Command>)
      requires scissors.Length == 1 && RegistryValid()
      modifies scissors
      ensures cmds == IssueAll(DrawPlan(lists), fontResourceSet, resourceById)
      ensures FinalScissor(lists) == None ==> unchanged(scissors)
      ensures FinalScissor(lists).Some? ==> scissors[0] == FinalScissor(lists).value
    {
      cmds := [];
      var vertexOffset: nat := 0;
      var indexOffset: nat := 0;
      var i := 0;
      while i < |lists|
        invariant 0 <= i <= |lists|
        invariant vertexOffset == TotalVtxCount(lists[..i]) && indexOffset == TotalElemCount(lists[..i])
        invariant cmds == IssueAll(DrawPlan(lists[..i]), fontResourceSet, resourceById)
        invariant FinalScissor(lists[..i]) == None ==> unchanged(scissors)
        invariant FinalScissor(lists[..i]).Some? ==> scissors[0] == FinalScissor(lists[..i]).value
      {
        var cmdList := lists[i];
        var calls, indexEnd := DrawCommands(cmdList.cmds, indexOffset, vertexOffset);
        DrawPlanStep(lists, i);
        FinalScissorStep(lists, i);
        IssueAllAppend(DrawPlan(lists[..i]), ListPlan(cmdList.cmds, indexOffset, vertexOffset),
                       fontResourceSet, resourceById);
        cmds := cmds + calls;
        indexOffset := indexEnd;
        vertexOffset := vertexOffset + cmdList.vtxCount;
        i := i + 1;
      }
      assert lists[..i] == lists;
    }

    /**
     * Draws one list's commands: for each, the scissor, the texture binding
     * and an indexed draw at the running index offset, which advances by the
     * command's element count.
     */
    method DrawCommands(drawCmds: seq<DrawCmd>, indexStart: nat, vertexOffset: nat)
      returns (calls: seq<Command>, indexEnd: nat)
      requires scissors.Length == 1 && RegistryValid()
      modifies scissors
      ensures calls == IssueAll(ListPlan(drawCmds, indexStart, vertexOffset), fontResourceSet, resourceById)
      ensures indexEnd == indexStart + SumOf(drawCmds, ElemCountOf)
      ensures drawCmds == [] ==> unchanged(scissors)
      ensures drawCmds != [] ==> scissors[0] == ScissorOf(drawCmds[|drawCmds| - 1].clip)
    {
      calls := [];
      indexEnd := indexStart;
      ghost var font, byId := fontResourceSet, resourceById;
      var j := 0;
      while j < |drawCmds|
        invariant 0 <= j <= |drawCmds|
        invariant indexEnd == indexStart + SumOf(drawCmds[..j], ElemCountOf)
        invariant calls == IssueAll(ListPlan(drawCmds[..j], indexStart, vertexOffset), font, byId)
        invariant j == 0 ==> unchanged(scissors)
        invariant j > 0 ==> scissors[0] == ScissorOf(drawCmds[j - 1].clip)
      {
        var cmd := drawCmds[j];
        var step := DrawCommand(cmd, indexEnd, vertexOffset);
        ghost var call := DrawCall(cmd, indexEnd, vertexOffset);
        ghost var plan := ListPlan(drawCmds[..j], indexStart, vertexOffset);
        ListPlanStep(drawCmds, j, indexStart, vertexOffset, indexEnd);
        IssueAllStep(plan, call, font, byId);
        PrefixSumBound(drawCmds, j, ElemCountOf);
        calls := calls + step;
        indexEnd := indexEnd + cmd.elemCount;
        j := j + 1;
      }
      assert drawCmds[..j] == drawCmds;
    }

    /** One draw command: its scissor, its texture binding unless the id is null, then the indexed draw. */
    method DrawCommand(cmd: DrawCmd, indexOffset: nat, vertexOffset: nat) returns (step: seq<Command>)
      requires scissors.Length == 1 && RegistryValid()
      modifies scissors
      ensures step == IssueDraw(DrawCall(cmd, indexOffset, vertexOffset), fontResourceSet, resourceById)
      ensures scissors[0] == ScissorOf(cmd.clip)
    {
      scissors[0] := ScissorOf(cmd.clip);
      step := [SetScissorRectangles(scissors[..])];
      assert scissors[..] == [ScissorOf(cmd.clip)];
      if cmd.textureId != NullTextureID {
        if cmd.textureId == FontAtlasID {
          step := step + [SetResourceSet(Some(fontResourceSet), 1)];
        } else {
          step := step + [SetResourceSet(GetImageResourceSet(cmd.textureId), 1)];
        }
      }
      step := step + [DrawIndexed(cmd.elemCount, indexOffset, vertexOffset)];
    }
  }


  /**
   * Registration from a fresh renderer: the first texture gets id 10, the
   * second 11, and registering the first again returns 10 with no new id.
   */
  method RegisterScenario(a: Texture, b: Texture) returns (idA: int, idB: int, again: int)
    requires a != b
    ensures idA == 10 && idB == 11 && again == 10
  {
    var r := new ImGuiRenderer();
    idA := r.GetOrCreateImGuiBinding(a);
    idB := r.GetOrCreateImGuiBinding(b);
    assert r.resourceByTexture[a].imGuiBinding == 10;
    again := r.GetOrCreateImGuiBinding(a);
  }

  /**
   * Removal: after A is removed its id resolves to nothing, while B's id
   * still resolves to the resource set B was registered with.
   */
  method RemoveScenario(a: Texture, b: Texture)
    returns (afterRemoveA: Option<ResourceSet>, setB: ResourceSet, resolvedB: Option<ResourceSet>)
    requires a != b
    ensures afterRemoveA == None
    ensures resolvedB == Some(setB)
  {
    var r := new ImGuiRenderer();
    var idA := r.GetOrCreateImGuiBinding(a);
    var idB := r.GetOrCreateImGuiBinding(b);
    setB := r.resourceByTexture[b].resourceSet;
    r.RemoveImGuiBinding(a);
    afterRemoveA := r.GetImageResourceSet(idA);
    resolvedB := r.GetImageResourceSet(idB);
  }

  /** A removed texture registered again gets a new id (11), not its old one (10). */
  method ReRegisterScenario(a: Texture) returns (first: int, second: int)
    ensures first == 10 && second == 11
  {
    var r := new ImGuiRenderer();
    first := r.GetOrCreateImGuiBinding(a);
    r.RemoveImGuiBinding(a);
    second := r.GetOrCreateImGuiBinding(a);
  }
}
