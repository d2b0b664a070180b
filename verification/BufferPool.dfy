/** The compiler's register allocator for audio buffers. */
module BufferPools {
  import opened Ordered

  class BufferPool {
    var free: set<int>
    var highWater: int

    ghost predicate Valid()
      reads this
    {
      highWater >= 0 && forall b :: b in free ==> 0 <= b < highWater
    }

    /** The buffers handed out and not given back. */
    ghost function Taken(): (taken: set<int>)
      reads this
      requires Valid()
      ensures free !! taken
      ensures forall b :: b in free + taken <==> 0 <= b < highWater
    {
      set b | 0 <= b < highWater && b !in free
    }

    constructor ()
      ensures Valid() && Taken() == {} && free == {} && highWater == 0
    {
      free, highWater := {}, 0;
    }

    /** Reuses the lowest free buffer; grows the pool only when there is none. */
    method Acquire() returns (result: int)
      requires Valid()
      modifies this
      ensures Valid() && result !in old(Taken()) && Taken() == old(Taken()) + {result}
      ensures old(free) == {} ==> result == old(highWater) && highWater == result + 1
      ensures old(free) != {} ==> result in old(free) && highWater == old(highWater)
      ensures forall b :: b in old(free) ==> result <= b
      ensures 0 <= result < highWater && highWater >= old(highWater)
    {
      if free != {} {
        LeastBuffer(free);
        result :| result in free && forall b :: b in free ==> result <= b;
        free := free - {result};
      } else {
        result := highWater;
        highWater := highWater + 1;
      }
    }

    method Release(index: int)
      requires Valid() && index in Taken()
      modifies this`free
      ensures Valid() && Taken() == old(Taken()) - {index}
      ensures free == old(free) + {index}
    {
      if index >= 0 {
        free := free + {index};
      }
    }
  }

  lemma LeastBuffer(s: set<int>)
    requires s != {}
    ensures exists x :: x in s && forall y :: y in s ==> x <= y
  {
    LeastExists(s, (a: int, b: int) => a < b);
  }
}
