/**
  The per-resource tracking record of the GL capture driver.

  A record keeps what the driver learns about one resource while capturing:
  the bind target it was first used with (`dataType`, checked on every later
  bind), a usage hint, the state of a buffer mapping (`Map`), and a pair of
  shadow buffers used for coherent persistent maps. The two shadow buffers
  are allocated together and freed together, so either both slots hold a
  buffer or both are NULL.
*/
module GLRecords {
  import opened GLResources
  import opened AlignedAlloc

  /** The capture-wide id a record is created with. */
  type ResourceId = nat

  type int64 = x: int | -0x8000_0000_0000_0000 <= x < 0x8000_0000_0000_0000

  /** `GLbitfield`, 32 bits unsigned. */
  type GLbitfield = GLuint

  datatype MapStatus = Unmapped | Mapped_Read | Mapped_Write | Mapped_Ignore_Real

  /** The integer value of a `MapStatus` enumerator. */
  function MapStatusValue(s: MapStatus): nat
  {
    match s
    case Unmapped => 0
    case Mapped_Read => 1
    case Mapped_Write => 2
    case Mapped_Ignore_Real => 3
  }

  /** The `Map` sub-record: the current mapping of a buffer. */
  datatype MapState = MapState(
    offset: int64,
    length: int64,
    access: GLbitfield,
    status: MapStatus,
    invalidate: bool,
    ptr: Address,
    persistentPtr: Address,
    persistentMaps: int64)  // how many coherent maps are live

  /** Every field of the sub-record holds the value whose bytes are all zero. */
  predicate IsZeroed(m: MapState)
  {
    && m.offset == 0 && m.length == 0 && m.access == 0
    && MapStatusValue(m.status) == 0
    && !m.invalidate
    && m.ptr == NullAddress && m.persistentPtr == NullAddress
    && m.persistentMaps == 0
  }

  /** The `Map` sub-record after it has been erased to zero bytes. */
  function ErasedMap(): (m: MapState)
    ensures IsZeroed(m)
  {
    MapState(0, 0, 0, Unmapped, false, NullAddress, NullAddress, 0)
  }

  /** Zero bytes determine the sub-record: it is unmapped, with no live persistent maps and NULL pointers. */
  lemma ZeroedMapIsUnmapped(m: MapState)
    requires IsZeroed(m)
    ensures m == ErasedMap()
    ensures m.status == Unmapped && m.persistentMaps == 0
    ensures m.ptr == NullAddress && m.persistentPtr == NullAddress
  {
  }

  class GLResourceRecord {
    /** The id handed to the base record. */
    const ResID: ResourceId
    /** The binding category of the first target the resource was bound to, or `eGL_NONE`. */
    var dataType: GLenum
    var usage: GLenum
    var Map: MapState
    var Resource: GLResource
    /** The two shadow-buffer slots; NULL when no shadow storage is held. */
    const ShadowPtr: array<Address>

    /** Both slots hold a buffer or neither does. */
    ghost predicate ShadowPaired()
      reads ShadowPtr
    {
      ShadowPtr.Length == 2 && (ShadowPtr[0] == NullAddress <==> ShadowPtr[1] == NullAddress)
    }

    /** Shadow storage is held; the source tests slot 0 for this. */
    predicate HasShadowStorage()
      reads ShadowPtr
      requires ShadowPtr.Length == 2
    {
      ShadowPtr[0] != NullAddress
    }

    /**
      The record's invariant against the allocator: the slots are paired and,
      when set, hold two distinct live blocks of the same size and alignment.
    */
    ghost predicate Valid(heap: AlignedHeap)
      reads ShadowPtr, heap
    {
      && ShadowPaired()
      && (HasShadowStorage() ==>
            && ShadowPtr[0] in heap.live && ShadowPtr[1] in heap.live
            && ShadowPtr[0] != ShadowPtr[1]
            && heap.live[ShadowPtr[0]] == heap.live[ShadowPtr[1]])
    }

    /**
      A fresh record: no data type or usage yet, the `Map` sub-record erased
      and both shadow slots NULL. The embedded `Resource` is default
      constructed, so its context is whatever the storage held.
    */
    constructor (id: ResourceId, uninitialised: ContextPtr)
      ensures ResID == id
      ensures dataType == eGL_NONE && usage == eGL_NONE
      ensures IsZeroed(Map)
      ensures Resource == NullResource(uninitialised)
      ensures fresh(ShadowPtr) && ShadowPtr.Length == 2
      ensures ShadowPtr[0] == NullAddress && ShadowPtr[1] == NullAddress
      ensures forall heap: AlignedHeap :: Valid(heap)
    {
      ResID := id;
      dataType, usage := eGL_NONE, eGL_NONE;
      Map := ErasedMap();
      Resource := NullResource(uninitialised);
      ShadowPtr := new Address[2] [NullAddress, NullAddress];
    }

    /** What `VerifyDataType` asserts before it changes anything. */
    predicate DataTypeAccepts(target: GLenum, textureBinding: GLenum -> GLenum)
      reads this
    {
      target == eGL_NONE || dataType == eGL_NONE || dataType == textureBinding(target)
    }

    /**
      `VerifyDataType` (non-release build): an omitted target is ignored; the
      first real target fixes `dataType` to its binding; any later target must
      have the same binding, which the source asserts.
    */
    method VerifyDataType(target: GLenum, textureBinding: GLenum -> GLenum)
      requires DataTypeAccepts(target, textureBinding)
      modifies this`dataType
      ensures target == eGL_NONE ==> dataType == old(dataType)
      ensures old(dataType) != eGL_NONE ==> dataType == old(dataType)
      ensures target != eGL_NONE ==> dataType == textureBinding(target)
    {
      if target == eGL_NONE {
        return;
      }
      if dataType == eGL_NONE {
        dataType := textureBinding(target);
      } else {
        assert dataType == textureBinding(target);
      }
    }

    /**
      `AlreadyDataType`: whether the record's data type is the binding of
      `target`; when it is, `VerifyDataType(target)` passes its check and
      leaves `dataType` as it is.
    */
    method AlreadyDataType(target: GLenum, textureBinding: GLenum -> GLenum) returns (r: bool)
      ensures r <==> dataType == textureBinding(target)
      ensures r ==> DataTypeAccepts(target, textureBinding)
    {
      r := dataType == textureBinding(target);
    }

    /**
      `AllocShadowStorage`: when no shadow storage is held, allocates two
      fresh blocks of `size` bytes; otherwise does nothing.
    */
    method AllocShadowStorage(heap: AlignedHeap, size: nat, alignment: nat := 16)
      requires heap.Valid() && Valid(heap)
      modifies ShadowPtr, heap
      ensures heap.Valid() && Valid(heap) && HasShadowStorage()
      ensures old(HasShadowStorage()) ==> ShadowPtr[..] == old(ShadowPtr[..]) && heap.live == old(heap.live)
      ensures !old(HasShadowStorage()) ==>
        && ShadowPtr[0] !in old(heap.live) && ShadowPtr[1] !in old(heap.live)
        && heap.live == old(heap.live)[ShadowPtr[0] := Block(size, alignment)][ShadowPtr[1] := Block(size, alignment)]
    {
      if ShadowPtr[0] == NullAddress {
        var p0 := heap.AllocAlignedBuffer(size, alignment);
        var p1 := heap.AllocAlignedBuffer(size, alignment);
        ShadowPtr[0] := p0;
        ShadowPtr[1] := p1;
      }
    }

    /**
      `FreeShadowStorage`: frees both blocks when storage is held, then
      leaves both slots NULL; calling it again frees nothing.
    */
    method FreeShadowStorage(heap: AlignedHeap)
      requires heap.Valid() && Valid(heap)
      modifies ShadowPtr, heap
      ensures heap.Valid() && Valid(heap)
      ensures ShadowPtr[0] == NullAddress && ShadowPtr[1] == NullAddress
      ensures heap.live == if old(HasShadowStorage()) then old(heap.live) - {old(ShadowPtr[0]), old(ShadowPtr[1])}
                           else old(heap.live)
    {
      if ShadowPtr[0] != NullAddress {
        heap.FreeAlignedBuffer(ShadowPtr[0]);
        heap.FreeAlignedBuffer(ShadowPtr[1]);
      }
      ShadowPtr[0], ShadowPtr[1] := NullAddress, NullAddress;
    }

    /** The destructor: releases any shadow storage. */
    method Destroy(heap: AlignedHeap)
      requires heap.Valid() && Valid(heap)
      modifies ShadowPtr, heap
      ensures heap.Valid()
      ensures ShadowPtr[0] == NullAddress && ShadowPtr[1] == NullAddress
      ensures heap.live == if old(HasShadowStorage()) then old(heap.live) - {old(ShadowPtr[0]), old(ShadowPtr[1])}
                           else old(heap.live)
    {
      FreeShadowStorage(heap);
    }

    /** `GetShadowPtr`: slot `p`, which is NULL exactly when no shadow storage is held. */
    method GetShadowPtr(p: int) returns (r: Address)
      requires 0 <= p < 2 && ShadowPaired()
      ensures r == ShadowPtr[p]
      ensures r == NullAddress <==> !HasShadowStorage()
    {
      r := ShadowPtr[p];
    }
  }

  /**
    A record's shadow storage over its lifetime: allocating twice holds one
    pair, and freeing twice releases that pair once, so the allocator ends
    with exactly the blocks it started with.
  */
  method ShadowStorageLifecycle(heap: AlignedHeap, id: ResourceId, size: nat)
    requires heap.Valid()
    modifies heap
    ensures heap.Valid() && heap.live == old(heap.live)
  {
    var rec := new GLResourceRecord(id, NULL);
    rec.AllocShadowStorage(heap, size);
    ghost var afterFirst := heap.live;
    rec.AllocShadowStorage(heap, size);
    assert heap.live == afterFirst;
    var s0 := rec.GetShadowPtr(0);
    var s1 := rec.GetShadowPtr(1);
    assert s0 != NullAddress && s1 != NullAddress;
    rec.FreeShadowStorage(heap);
    rec.Destroy(heap);
  }
}
