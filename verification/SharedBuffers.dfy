/**
 The operations of shared_buf on handle objects that share a block.

 Each method is one thread's undisturbed run of the operation; the counter operations are
 those of module RefCount, which has the interleavings and shows that the counter equals
 the number of handles.  Hence the preconditions: a block that a handle points to is not
 deleted, and two different handles of one block make its counter at least 2.
 */
module SharedBuffers {
  import opened Common
  import opened RefCount

  /** The storage that handles share: counter and registration cells. */
  class Storage {
    var count: nat        // refCount, 32 bits
    var frees: nat        // history: how often the block was deleted
    var observedOne: nat  // history: decrements that saw the value 1
    var registered: bool
    var key: nat
    var desc: nat

    function View(): Block
      reads this
    {
      Block(count, frees, observedOne, if registered then Some(key) else None)
    }

    constructor ()
      ensures View() == NEW_BLOCK
    {
      count, frees, observedOne, registered, key, desc := 1, 0, 0, false, 0, 0;
    }

    method FetchAddOne()
      modifies this`count
      ensures View() == Incremented(old(View()))
    {
      count := (count + 1) % UINT32;
    }

    /** fetch_add(-1), which returns the old value. */
    method FetchSubOne() returns (seen: nat)
      modifies this`count, this`observedOne
      ensures seen == old(count) && View() == Decremented(old(View()))
    {
      seen := count;
      count := (count + UINT32 - 1) % UINT32;
      if seen == 1 {
        observedOne := observedOne + 1;
      }
    }
  }

  /** The block after one handle let go of it. */
  function Released(k: Block): Block {
    if k.count == 1 then Freed(Decremented(k)) else Decremented(k)
  }

  /** A block that has at least `handles` handles. */
  predicate Held(k: Block, handles: nat) {
    k.frees == 0 && k.observedOne == 0 && handles <= k.count < UINT32 - 1
  }

  /** Letting go of a block leaves it undeleted exactly when another handle is left. */
  lemma {:induction false} ReleasedKeepsIff(k: Block)
    requires Held(k, 1)
    ensures Released(k).frees == 0 <==> k.count >= 2
    ensures k.count >= 2 ==> Held(Released(k), 1) && Incremented(Released(k)) == k
    ensures k.count == 1 ==> Released(k) == Block(0, 1, 1, k.key)
  {
  }

  class SharedBuf {
    var block: Storage?  // buf, desc and refCount, which moves clear
    var cells: Storage?  // registered and key_, which moves do not clear
    var size: nat

    /** Handles that have a block are counted by it. */
    predicate Valid()
      reads this, block
    {
      block != null ==> cells == block && Held(block.View(), 1)
    }

    /** The cells may be read: they are not deleted. */
    predicate Readable()
      reads this, cells
    {
      cells != null && cells.frees == 0
    }

    constructor (size: nat)
      ensures block != null && fresh(block) && block.View() == NEW_BLOCK && cells == block && this.size == size
    {
      var storage := new Storage();
      block, cells := storage, storage;
      this.size := size;
    }

    /** The copy constructor; the source's counter is dereferenced unconditionally. */
    constructor Copy(other: SharedBuf)
      requires other.Valid() && other.block != null
      modifies other.block`count
      ensures block == other.block && cells == block && size == other.size
      ensures block.View() == Incremented(old(other.block.View())) && block.frees == 0 && block.count >= 2
    {
      block, cells := other.block, other.cells;
      size := other.size;
      new;
      other.block.FetchAddOne();
    }

    /** The move constructor: no counter changes, and the source has no block any more, but
        keeps its pointers to the registration cells. */
    constructor Move(other: SharedBuf)
      requires other.Valid()
      modifies other`block
      ensures block == old(other.block) && cells == other.cells && size == other.size && other.block == null
      ensures Valid()
    {
      block, cells := other.block, other.cells;
      size := other.size;
      new;
      other.block := null;
    }

    /** The destructor, and the first half of both assignments. */
    method Release()
      requires Valid()
      modifies this`block, block
      ensures block == null
      ensures old(block) != null ==> old(block).View() == Released(old(block.View()))
      ensures old(block) != null ==> old(block).registered == old(block.registered)
    {
      if block != null {
        var seen := block.FetchSubOne();
        if seen == 1 {
          block.frees := block.frees + 1;
        }
      }
      block := null;
    }

    /** Release first, then acquire.  The block of the source survives, also if it was the
        block of this handle, whose count then ends as it was; self-assignment changes
        nothing. */
    method CopyAssign(other: SharedBuf)
      requires Valid() && other.Valid() && (other == this || other.block != null)
      requires other != this && other.block == block ==> Held(block.View(), 2)
      modifies this, block, other.block
      ensures block == old(other.block) && other.block == old(other.block) && size == old(other.size)
      ensures cells == old(other.cells) && other.cells == old(other.cells)
      ensures block != null ==> block.frees == 0 && Readable()
      ensures other == this && block != null ==> block.View() == old(block.View())
      ensures other != this && old(block) == old(other.block) ==> block.View() == old(other.block.View())
      ensures other != this && old(block) != old(other.block) ==>
                && block.View() == Incremented(old(other.block.View()))
                && (old(block) != null ==> old(block).View() == Released(old(block.View())))
    {
      if other == this {
        return;
      }
      if other.block == block {
        ReleasedKeepsIff(block.View());
      }
      Release();
      other.block.FetchAddOne();
      block, cells := other.block, other.cells;
      size := other.size;
    }

    /** As CopyAssign, but the source's share is handed over: its block keeps its count, or
        loses the one share of this handle if both had the same block. */
    method MoveAssign(other: SharedBuf)
      requires Valid() && other.Valid()
      requires other != this && other.block == block && block != null ==> Held(block.View(), 2)
      modifies this, block, other`block
      ensures block == old(other.block) && size == old(other.size)
      ensures cells == old(other.cells) && other.cells == old(other.cells)
      ensures block != null ==> block.frees == 0 && Readable()
      ensures other != this ==> other.block == null
      ensures other == this && block != null ==> block.View() == old(block.View())
      ensures other != this && old(block) != null ==> old(block).View() == Released(old(block.View()))
      ensures other != this && block != null && old(block) != block ==> block.View() == old(other.block.View())
    {
      if other == this {
        return;
      }
      Release();
      block, cells := other.block, other.cells;
      size := other.size;
      other.block := null;
    }

    /** Registration is stored in the block. */
    method RegisterMemoryCallback(key: nat, desc: nat)
      requires block != null && cells == block
      modifies block`registered, block`key, block`desc
      ensures block.View() == old(block.View()).(key := Some(key)) && block.desc == desc
    {
      cells.registered := true;
      cells.key := key;
      block.desc := desc;
    }

    /** Also a handle that was moved from can ask, while its cells are not deleted. */
    method IsRegistered() returns (r: bool)
      requires Readable()
      ensures r <==> cells.View().key.Some?
    {
      r := cells.registered;
    }

    /** The key; the assertion only tests the pointer to the flag, not the flag. */
    method Key() returns (r: nat)
      requires Readable()
      ensures cells.View().key.Some? ==> r == cells.View().key.value
    {
      r := cells.key;
    }
  }
}
