/**
 * `regular_bg_map_ptr` (butano/include/btn_regular_bg_map_ptr.h): an owning handle
 * stored as an `int8_t`, with -1 for a handle that owns nothing. Moving transfers
 * ownership without touching the maps bank; the destructor releases a handle only
 * when it owns one. The bank is kept abstract: it records the handles `_destroy`
 * hands back to it, in order.
 */
module RegularBgMaps {

  newtype int8 = x: int | -128 <= x < 128

  /**
   * The conversion `int8_t(handle)` of the private constructor: the value congruent
   * to `x` modulo 256 in `[-128, 127]`, so a handle already in range is kept as is.
   */
  function ToInt8(x: int): (r: int8)
    ensures (r as int - x) % 256 == 0
    ensures -128 <= x < 128 ==> r as int == x
  {
    ((x + 128) % 256 - 128) as int8
  }

  /** The maps bank, seen only through the handles released to it. */
  class MapsBank {
    var released: seq<int8>

    constructor ()
      ensures released == []
    {
      released := [];
    }
  }

  class RegularBgMapPtr {
    const bank: MapsBank
    var handle: int8
    /** False once the destructor has run. */
    ghost var alive: bool

    /** The private constructor `regular_bg_map_ptr(int handle)`: no usage is taken. */
    constructor FromHandle(bank: MapsBank, handle: int)
      ensures this.bank == bank && alive
      ensures this.handle == ToInt8(handle)
      ensures -128 <= handle < 128 ==> this.handle as int == handle
    {
      this.bank := bank;
      this.handle := ToInt8(handle);
      alive := true;
    }

    /** The move constructor: this takes over the handle and `other` is left owning nothing. */
    constructor Move(other: RegularBgMapPtr)
      requires other.alive
      modifies other
      ensures bank == other.bank && alive && other.alive
      ensures handle == old(other.handle) && other.handle == -1
    {
      bank := other.bank;
      handle := ToInt8(other.handle as int);
      alive := true;
      new;
      other.handle := -1;
    }

    /** Move assignment: the two handles are swapped. */
    method MoveAssign(other: RegularBgMapPtr)
      requires alive && other.alive
      modifies this, other
      ensures alive && other.alive
      ensures handle == old(other.handle) && other.handle == old(handle)
    {
      handle, other.handle := other.handle, handle;
    }

    /** The destructor: `_destroy` runs exactly when the handle is not negative. */
    method Destroy()
      requires alive
      modifies this, bank
      ensures !alive && handle == old(handle)
      ensures bank.released == old(bank.released) + (if handle >= 0 then [handle] else [])
    {
      if handle >= 0 {
        bank.released := bank.released + [handle];
      }
      alive := false;
    }

    /** `operator==`: equal handles. */
    function Equals(other: RegularBgMapPtr): (r: bool)
      reads this, other
      ensures r <==> handle == other.handle
    {
      handle == other.handle
    }

    /** `operator!=`: the negation of `==`. */
    function NotEquals(other: RegularBgMapPtr): (r: bool)
      reads this, other
      ensures r <==> !Equals(other)
    {
      !(handle == other.handle)
    }

    /** `hash()`: `make_hash` of the handle, for whatever hash function `makeHash` is. */
    function Hash(makeHash: int -> int): int
      reads this
    {
      makeHash(handle as int)
    }
  }

  /** Equal handles hash equally, whatever the hash function. */
  lemma EqualHandlesHashEqually(a: RegularBgMapPtr, b: RegularBgMapPtr, makeHash: int -> int)
    requires a.Equals(b)
    ensures a.Hash(makeHash) == b.Hash(makeHash)
  {
  }

  /**
   * A move followed by the destruction of both handles releases the handle once:
   * the moved-from source releases nothing.
   */
  method MoveThenDestroyBoth(p: RegularBgMapPtr) returns (q: RegularBgMapPtr)
    requires p.alive
    modifies p, p.bank
    ensures p.bank.released == old(p.bank.released) + (if old(p.handle) >= 0 then [old(p.handle)] else [])
  {
    q := new RegularBgMapPtr.Move(p);
    q.Destroy();
    p.Destroy();
  }

  /** Two move assignments between the same handles restore both. */
  method MoveAssignTwiceRestores(a: RegularBgMapPtr, b: RegularBgMapPtr)
    requires a.alive && b.alive
    modifies a, b
    ensures a.handle == old(a.handle) && b.handle == old(b.handle)
  {
    a.MoveAssign(b);
    a.MoveAssign(b);
  }
}
