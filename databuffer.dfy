// The pair of 1024-byte slots a pipe moves data through, one per direction,
// each guarded by a data-present flag (DataBuffer.kt). The bytes themselves
// are not modelled; a slot's `remaining` is what `ByteBuffer.remaining()`
// reports for it.

module Buffers {
  import opened Common

  /** Capacity of each slot, `ByteBuffer.allocate(1024)`. */
  const Capacity: nat := 1024

  /** The two slots: `Src` holds client-to-upstream data, `Dest` upstream-to-client data. */
  datatype Side = Src | Dest

  /** The slot on the other side. */
  function Other(side: Side): (r: Side)
    ensures r != side
  {
    if side == Src then Dest else Src
  }

  /** The `IllegalArgumentException` a borrow throws. */
  datatype BufferError = NoDataToConsume | DataAlreadyPresent

  /** The two data-present flags. */
  datatype Flags = Flags(src: bool, dest: bool) {
    function Get(side: Side): bool {
      if side == Src then src else dest
    }

    function Set(side: Side, value: bool): (r: Flags)
      ensures r.Get(side) == value && r.Get(Other(side)) == Get(Other(side))
    {
      if side == Src then this.(src := value) else this.(dest := value)
    }
  }

  /** A fresh buffer holds no data in either slot. */
  const Fresh: Flags := Flags(false, false)

  /** What consuming a slot does to the flags: it must hold data, and afterwards it does not. */
  function Consume(flags: Flags, side: Side): (r: Result<Flags, BufferError>)
    ensures r.Success? <==> flags.Get(side)
    ensures r.Success? ==> !r.value.Get(side) && r.value.Get(Other(side)) == flags.Get(Other(side))
    ensures r.Failure? ==> r.error == NoDataToConsume
  {
    if !flags.Get(side) then Failure(NoDataToConsume) else Success(flags.Set(side, false))
  }

  /** What producing into a slot does to the flags: it must be empty, and afterwards it holds data. */
  function Produce(flags: Flags, side: Side): (r: Result<Flags, BufferError>)
    ensures r.Success? <==> !flags.Get(side)
    ensures r.Success? ==> r.value.Get(side) && r.value.Get(Other(side)) == flags.Get(Other(side))
    ensures r.Failure? ==> r.error == DataAlreadyPresent
  {
    if flags.Get(side) then Failure(DataAlreadyPresent) else Success(flags.Set(side, true))
  }

  /** Producing and then consuming the same slot gives back the flags it started from. */
  lemma ProduceThenConsume(flags: Flags, side: Side)
    requires Produce(flags, side).Success?
    ensures Consume(Produce(flags, side).value, side) == Success(flags)
  {
    if side == Src {
      assert Produce(flags, side).value == flags.(src := true);
    } else {
      assert Produce(flags, side).value == flags.(dest := true);
    }
  }

  /** Consuming and then producing the same slot gives back the flags it started from. */
  lemma ConsumeThenProduce(flags: Flags, side: Side)
    requires Consume(flags, side).Success?
    ensures Produce(Consume(flags, side).value, side) == Success(flags)
  {
    if side == Src {
      assert Consume(flags, side).value == flags.(src := false);
    } else {
      assert Consume(flags, side).value == flags.(dest := false);
    }
  }

  /** A second produce into the same slot, with no consume between, throws. */
  lemma ProduceTwiceFails(flags: Flags, side: Side)
    requires Produce(flags, side).Success?
    ensures Produce(Produce(flags, side).value, side) == Failure(DataAlreadyPresent)
  {
  }

  /** A second consume of the same slot, with no produce between, throws. */
  lemma ConsumeTwiceFails(flags: Flags, side: Side)
    requires Consume(flags, side).Success?
    ensures Consume(Consume(flags, side).value, side) == Failure(NoDataToConsume)
  {
  }

  /** Borrows of different slots do not interfere: they commute. */
  lemma BorrowsOfDifferentSlotsCommute(flags: Flags, produce: bool, consume: bool)
    requires (if produce then Produce(flags, Src) else Consume(flags, Src)).Success?
    requires (if consume then Consume(flags, Dest) else Produce(flags, Dest)).Success?
    ensures var a := (if produce then Produce(flags, Src) else Consume(flags, Src)).value;
            var b := (if consume then Consume(flags, Dest) else Produce(flags, Dest)).value;
            (if consume then Consume(a, Dest) else Produce(a, Dest)).Success?
            && (if produce then Produce(b, Src) else Consume(b, Src)).Success?
            && (if consume then Consume(a, Dest) else Produce(a, Dest)).value
               == (if produce then Produce(b, Src) else Consume(b, Src)).value
  {
  }

  class DataBuffer {
    var srcDataPresent: bool
    var destDataPresent: bool
    /** `srcBuffer.remaining()` and `destBuffer.remaining()`. */
    var srcRemaining: nat
    var destRemaining: nat

    function Present(): Flags
      reads this
    {
      Flags(srcDataPresent, destDataPresent)
    }

    function Remaining(side: Side): nat
      reads this
    {
      if side == Src then srcRemaining else destRemaining
    }

    /** Both slots fresh from `ByteBuffer.allocate(1024)`, neither holding data. */
    constructor ()
      ensures Present() == Fresh
      ensures srcRemaining == Capacity && destRemaining == Capacity
    {
      srcDataPresent := false;
      destDataPresent := false;
      srcRemaining := Capacity;
      destRemaining := Capacity;
    }

    method BorrowSrcForConsuming() returns (r: Result<Side, BufferError>)
      modifies this
      ensures r.Success? <==> Consume(old(Present()), Src).Success?
      ensures r.Success? ==> r.value == Src && Present() == Consume(old(Present()), Src).value
      ensures r.Failure? ==> r.error == Consume(old(Present()), Src).error && Present() == old(Present())
      ensures srcRemaining == old(srcRemaining) && destRemaining == old(destRemaining)
    {
      if !srcDataPresent {
        return Failure(NoDataToConsume);
      }
      srcDataPresent := false;
      return Success(Src);
    }

    method BorrowDestForConsuming() returns (r: Result<Side, BufferError>)
      modifies this
      ensures r.Success? <==> Consume(old(Present()), Dest).Success?
      ensures r.Success? ==> r.value == Dest && Present() == Consume(old(Present()), Dest).value
      ensures r.Failure? ==> r.error == Consume(old(Present()), Dest).error && Present() == old(Present())
      ensures srcRemaining == old(srcRemaining) && destRemaining == old(destRemaining)
    {
      if !destDataPresent {
        return Failure(NoDataToConsume);
      }
      destDataPresent := false;
      return Success(Dest);
    }

    method BorrowSrcForProducing() returns (r: Result<Side, BufferError>)
      modifies this
      ensures r.Success? <==> Produce(old(Present()), Src).Success?
      ensures r.Success? ==> r.value == Src && Present() == Produce(old(Present()), Src).value
      ensures r.Failure? ==> r.error == Produce(old(Present()), Src).error && Present() == old(Present())
      ensures srcRemaining == old(srcRemaining) && destRemaining == old(destRemaining)
    {
      if srcDataPresent {
        return Failure(DataAlreadyPresent);
      }
      srcDataPresent := true;
      return Success(Src);
    }

    method BorrowDestForProducing() returns (r: Result<Side, BufferError>)
      modifies this
      ensures r.Success? <==> Produce(old(Present()), Dest).Success?
      ensures r.Success? ==> r.value == Dest && Present() == Produce(old(Present()), Dest).value
      ensures r.Failure? ==> r.error == Produce(old(Present()), Dest).error && Present() == old(Present())
      ensures srcRemaining == old(srcRemaining) && destRemaining == old(destRemaining)
    {
      if destDataPresent {
        return Failure(DataAlreadyPresent);
      }
      destDataPresent := true;
      return Success(Dest);
    }

    /** Reports the flag; reading it changes nothing. */
    method SrcHasData() returns (r: bool)
      ensures r == Present().Get(Src)
    {
      return srcDataPresent;
    }

    method DestHasData() returns (r: bool)
      ensures r == Present().Get(Dest)
    {
      return destDataPresent;
    }
  }
}
