/** `cow_ptr<T>`: a copy-on-write pointer. Copies share one heap block whose
    `useCount` is the `shared_ptr` use count; writing through a shared pointer
    first detaches onto a private copy. */
module Cow {

  /** The shared heap object and its use count. */
  class Block<T> {
    var items: T
    var useCount: nat

    constructor (items: T)
      ensures this.items == items && useCount == 1
    {
      this.items := items;
      useCount := 1;
    }
  }

  class CowPtr<T> {
    var block: Block?<T>

    /** `cow_ptr()`: holds no object at all. */
    constructor Default()
      ensures block == null
    {
      block := null;
    }

    /** `make_cow(args...)`: the sole owner of a new object. */
    constructor Make(items: T)
      ensures block != null && fresh(block)
      ensures block.items == items && block.useCount == 1
    {
      block := new Block(items);
    }

    /** The copy constructor: shares `other`'s object and bumps its use count. */
    constructor Copy(other: CowPtr<T>)
      modifies other.block
      ensures block == other.block
      ensures block != null ==> block.useCount == old(other.block.useCount) + 1 && block.items == old(other.block.items)
    {
      block := other.block;
      new;
      if block != null {
        block.useCount := block.useCount + 1;
      }
    }

    /** `read()`: the object, without copying. */
    function Read(): T
      reads this, block
      requires block != null
    {
      block.items
    }

    /** `operator==`: identity of the held object, not equality of contents. */
    predicate Same(other: CowPtr<T>)
      reads this, other
    {
      block == other.block
    }

    /** Holders of the same object read the same contents. */
    lemma SameHoldersReadAlike(other: CowPtr<T>)
      requires block != null && Same(other)
      ensures other.block != null && Read() == other.Read()
      ensures other.Same(this)
    {
    }

    /** `detach()`: when the object is shared, replace it by a private copy and
        leave the other holders on the old one; otherwise do nothing. */
    method Detach()
      modifies this, block
      ensures old(block) == null ==> block == null
      ensures old(block) != null && old(block.useCount) <= 1 ==> block == old(block) && unchanged(block)
      ensures old(block) != null && old(block.useCount) > 1 ==>
        fresh(block) && block.items == old(block.items) && block.useCount == 1 &&
        old(block).items == old(block.items) && old(block).useCount == old(block.useCount) - 1
    {
      if block != null && block.useCount > 1 {
        var copy := new Block(block.items);
        block.useCount := block.useCount - 1;
        block := copy;
      }
    }

    /** `*write() = items`: detach, then overwrite the now private object. The
        source dereferences the pointer, so it must hold an object. */
    method Write(items: T)
      requires block != null
      modifies this, block
      ensures block != null && block.items == items
      ensures old(block.useCount) > 1 ==>
        fresh(block) && block.useCount == 1 &&
        old(block).items == old(block.items) && old(block).useCount == old(block.useCount) - 1
      ensures old(block.useCount) <= 1 ==> block == old(block) && block.useCount == old(block.useCount)
    {
      Detach();
      block.items := items;
    }

    /** The destructor: drop this holder's share of the object. */
    method Release()
      modifies this, block
      ensures block == null
      ensures old(block) != null && old(block.useCount) > 0 ==> old(block).useCount == old(block.useCount) - 1
      ensures old(block) != null ==> old(block).items == old(block.items)
    {
      if block != null && block.useCount > 0 {
        block.useCount := block.useCount - 1;
      }
      block := null;
    }
  }
}
