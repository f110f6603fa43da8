/**
 * The texture-binding registry's invariant, stated over the values of the
 * renderer's registry fields, and its preservation by the two operations
 * that change them: registering a texture and removing one.
 *
 * The registry keeps the same entries under two keys (the texture, and the
 * id handed to the GUI toolkit). `issued` is every id ever handed out,
 * `owner` and `setOwner` name the texture behind each registered id and
 * resource set, `disposed` is every resource set released so far and
 * `reserved` the renderer's own sets (constants and font atlas), which the
 * registry never hands out or releases.
 */
module Registry {
  import opened Resources

  ghost predicate Invariant(byTexture: map<Texture, ResourceSetInfo>, byId: map<int, ResourceSetInfo>,
                            lastAssignedID: int, issued: set<int>,
                            owner: map<int, Texture>, setOwner: map<ResourceSet, Texture>,
                            nextSerial: nat, disposed: set<ResourceSet>, reserved: set<ResourceSet>)
  {
    && FirstDynamicID <= lastAssignedID
    && (forall id :: id in issued ==> FirstDynamicID <= id < lastAssignedID)
    && (forall rs :: rs in disposed ==> rs.serial < nextSerial)
    && (forall rs :: rs in reserved ==> rs.serial < nextSerial && rs !in disposed)
    && owner.Keys == byId.Keys
    && (forall id :: id in byId ==>
          && byId[id].imGuiBinding == id
          && id in issued
          && owner[id] in byTexture
          && byTexture[owner[id]] == byId[id])
    && (forall t :: t in byTexture ==>
          var info := byTexture[t];
          && info.imGuiBinding in byId && byId[info.imGuiBinding] == info
          && owner[info.imGuiBinding] == t
          && info.resourceSet in setOwner && setOwner[info.resourceSet] == t
          && info.resourceSet.serial < nextSerial
          && info.resourceSet !in disposed && info.resourceSet !in reserved)
  }

  /** Two registered textures never share an id or a resource set. */
  lemma EntriesDistinct(byTexture: map<Texture, ResourceSetInfo>, byId: map<int, ResourceSetInfo>,
                        lastAssignedID: int, issued: set<int>,
                        owner: map<int, Texture>, setOwner: map<ResourceSet, Texture>,
                        nextSerial: nat, disposed: set<ResourceSet>, reserved: set<ResourceSet>,
                        t: Texture, u: Texture)
    requires Invariant(byTexture, byId, lastAssignedID, issued, owner, setOwner, nextSerial, disposed, reserved)
    requires t in byTexture && u in byTexture && t != u
    ensures byTexture[t].imGuiBinding != byTexture[u].imGuiBinding
    ensures byTexture[t].resourceSet != byTexture[u].resourceSet
  {
  }

  /**
   * Registering an unregistered texture under the counter's value with a
   * newly created resource set keeps the invariant; neither index already
   * holds the new key.
   */
  lemma AddKeepsInvariant(byTexture: map<Texture, ResourceSetInfo>, byId: map<int, ResourceSetInfo>,
                          lastAssignedID: int, issued: set<int>,
                          owner: map<int, Texture>, setOwner: map<ResourceSet, Texture>,
                          nextSerial: nat, disposed: set<ResourceSet>, reserved: set<ResourceSet>,
                          texture: Texture)
    requires Invariant(byTexture, byId, lastAssignedID, issued, owner, setOwner, nextSerial, disposed, reserved)
    requires texture !in byTexture
    ensures lastAssignedID !in byId && lastAssignedID !in issued
    ensures
      var info := ResourceSetInfo(lastAssignedID, ResourceSet(nextSerial));
      Invariant(byTexture[texture := info], byId[lastAssignedID := info],
                lastAssignedID + 1, issued + {lastAssignedID},
                owner[lastAssignedID := texture], setOwner[ResourceSet(nextSerial) := texture],
                nextSerial + 1, disposed, reserved)
  {
  }

  /**
   * Removing a registered texture deletes its entry from both indexes and
   * releases its resource set, which was live; the invariant holds after.
   */
  lemma RemoveKeepsInvariant(byTexture: map<Texture, ResourceSetInfo>, byId: map<int, ResourceSetInfo>,
                             lastAssignedID: int, issued: set<int>,
                             owner: map<int, Texture>, setOwner: map<ResourceSet, Texture>,
                             nextSerial: nat, disposed: set<ResourceSet>, reserved: set<ResourceSet>,
                             texture: Texture)
    requires Invariant(byTexture, byId, lastAssignedID, issued, owner, setOwner, nextSerial, disposed, reserved)
    requires texture in byTexture
    ensures byTexture[texture].resourceSet !in disposed
    ensures
      var info := byTexture[texture];
      Invariant(byTexture - {texture}, byId - {info.imGuiBinding},
                   lastAssignedID, issued,
                   owner - {info.imGuiBinding}, setOwner - {info.resourceSet},
                   nextSerial, disposed + {info.resourceSet}, reserved)
  {
  }

  /** A registered texture's id resolves to that texture's resource set. */
  lemma ResolveRegistered(byTexture: map<Texture, ResourceSetInfo>, byId: map<int, ResourceSetInfo>,
                          lastAssignedID: int, issued: set<int>,
                          owner: map<int, Texture>, setOwner: map<ResourceSet, Texture>,
                          nextSerial: nat, disposed: set<ResourceSet>, reserved: set<ResourceSet>,
                          t: Texture)
    requires Invariant(byTexture, byId, lastAssignedID, issued, owner, setOwner, nextSerial, disposed, reserved)
    requires t in byTexture
    ensures Resolve(byId, byTexture[t].imGuiBinding) == Some(byTexture[t].resourceSet)
  {
  }

  /**
   * An id resolves exactly when some registered texture holds it; what it
   * resolves to is live, not one of the renderer's own sets, and the id was
   * handed out by the counter (so it is neither 0 nor the font id).
   */
  lemma ResolveMeansRegistered(byTexture: map<Texture, ResourceSetInfo>, byId: map<int, ResourceSetInfo>,
                               lastAssignedID: int, issued: set<int>,
                               owner: map<int, Texture>, setOwner: map<ResourceSet, Texture>,
                               nextSerial: nat, disposed: set<ResourceSet>, reserved: set<ResourceSet>,
                               id: int)
    requires Invariant(byTexture, byId, lastAssignedID, issued, owner, setOwner, nextSerial, disposed, reserved)
    ensures Resolve(byId, id).Some? <==> exists t :: t in byTexture && byTexture[t].imGuiBinding == id
    ensures Resolve(byId, id).Some? ==>
      && id in issued && FirstDynamicID <= id < lastAssignedID
      && Resolve(byId, id).value !in disposed && Resolve(byId, id).value !in reserved
  {
  }
}
