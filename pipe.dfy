// One proxied connection (Pipe.kt): a client channel (`src`) and an upstream
// channel (`dest`), their selection keys, and a DataBuffer whose `Src` slot
// carries client-to-upstream bytes and whose `Dest` slot carries
// upstream-to-client bytes. Each readiness event moves at most one slot's
// worth of data and rearms the keys so that reading and writing alternate.
//
// The effect of each handler is described by a step function on `PipeState`,
// a value holding every field the handlers read or change; the class's
// methods are proved to change their objects exactly as the step function
// says.

module Pipes {
  import opened Common
  import opened Buffers
  import opened Selection

  // ---------------------------------------------------------------------------
  // Environment outcomes
  // ---------------------------------------------------------------------------

  /** A read fills at most the cleared 1024-byte slot. */
  type Chunk = n: nat | n <= 1024

  /** What `ch.read(buffer)` did: `n` bytes (possibly 0), `-1`, or an `IOException`. */
  datatype ReadResult = BytesRead(n: Chunk) | EndOfStream | ReadError

  /** What `ch.write(buffer)` did: the socket took up to `room` bytes, or threw an `IOException`. */
  datatype WriteResult = Took(room: nat) | WriteError

  // ---------------------------------------------------------------------------
  // The state a pipe's handlers act on
  // ---------------------------------------------------------------------------

  /**
   * Everything about one side: its EOF flag, its slot (data-present flag and
   * `remaining()`), and its key's interest set and validity and its channel's
   * openness.
   */
  datatype End = End(eof: bool, present: bool, remaining: nat, interest: set<Interest>, registered: bool, open: bool)

  datatype PipeState = PipeState(src: End, dest: End, bytesUp: nat, bytesDown: nat) {
    function Of(side: Side): End {
      if side == Src then src else dest
    }

    function With(side: Side, e: End): (r: PipeState)
      ensures r.Of(side) == e && r.Of(Other(side)) == Of(Other(side))
      ensures r.bytesUp == bytesUp && r.bytesDown == bytesDown
    {
      if side == Src then this.(src := e) else this.(dest := e)
    }

    /** The byte counter of the side that reads into `side`'s slot. */
    function Counter(side: Side): nat {
      if side == Src then bytesUp else bytesDown
    }
  }

  /** `isEOF()`: either party closed its end. */
  predicate EitherEOF(s: PipeState) {
    s.src.eof || s.dest.eof
  }

  /** `hasData()`: some slot still holds data not yet written. */
  predicate Pending(s: PipeState) {
    s.src.present || s.dest.present
  }

  /** `shouldClose()`: a party closed and nothing is left to deliver. */
  predicate Done(s: PipeState) {
    EitherEOF(s) && !Pending(s)
  }

  /** `cleanup()`: both channels closed and both keys cancelled. */
  function CleanedUp(s: PipeState): (r: PipeState)
    ensures !r.src.open && !r.dest.open && !r.src.registered && !r.dest.registered
  {
    s.(src := s.src.(open := false, registered := false), dest := s.dest.(open := false, registered := false))
  }

  /** The `if (shouldClose()) cleanup()` that ends several handler paths. */
  function CloseIfDone(s: PipeState): PipeState {
    if Done(s) then CleanedUp(s) else s
  }

  /** Removes `op` from one side's interest set. */
  function Disarm(s: PipeState, side: Side, op: Interest): PipeState {
    s.With(side, s.Of(side).(interest := s.Of(side).interest - {op}))
  }

  /** Adds `op` to one side's interest set. */
  function Arm(s: PipeState, side: Side, op: Interest): PipeState {
    s.With(side, s.Of(side).(interest := s.Of(side).interest + {op}))
  }

  /**
   * `handleCanRead` on side `side`: the slot is cleared first; a slot still
   * holding data pauses this side's reading; otherwise the read result is
   * acted on.
   */
  function ReadStep(s: PipeState, side: Side, r: ReadResult): PipeState {
    var cleared := s.With(side, s.Of(side).(remaining := Capacity));
    if s.Of(side).present then Disarm(cleared, side, OpRead)
    else
      match r
      case ReadError => CleanedUp(cleared)
      case EndOfStream => CloseIfDone(cleared.With(side, cleared.Of(side).(eof := true)))
      case BytesRead(n) =>
        if n == 0 then cleared
        else
          var counted := if side == Src then cleared.(bytesUp := cleared.bytesUp + n)
                         else cleared.(bytesDown := cleared.bytesDown + n);
          var filled := counted.With(side, counted.Of(side).(present := true, remaining := n));
          Arm(Disarm(filled, side, OpRead), Other(side), OpWrite)
  }

  /**
   * `handleCanWrite` on side `side`, which sends out the other side's slot:
   * an empty slot pauses this side's writing; a write that empties the slot
   * frees it and hands reading back to the other side.
   */
  function WriteStep(s: PipeState, side: Side, w: WriteResult): PipeState {
    var from := Other(side);
    var slot := s.Of(from);
    if !slot.present then CloseIfDone(Disarm(s, side, OpWrite))
    else
      match w
      case WriteError => CleanedUp(s)
      case Took(room) =>
        var left := if room < slot.remaining then slot.remaining - room else 0;
        var wrote := s.With(from, slot.(remaining := left));
        var freed := wrote.With(from, wrote.Of(from).(present := false, interest := wrote.Of(from).interest + {OpRead}));
        var after := if left == 0 then Disarm(freed, side, OpWrite) else wrote;
        CloseIfDone(after)
  }

  // ---------------------------------------------------------------------------
  // Properties of the handlers
  // ---------------------------------------------------------------------------

  /** `shouldClose()` holds iff a party has closed and no slot holds undelivered data. */
  lemma DoneMeans(s: PipeState)
    ensures Done(s) <==> (s.src.eof || s.dest.eof) && !s.src.present && !s.dest.present
  {
  }

  /** No handler ever decreases a byte counter. */
  lemma CountersNeverDecrease(s: PipeState, side: Side, r: ReadResult, w: WriteResult)
    ensures ReadStep(s, side, r).bytesUp >= s.bytesUp && ReadStep(s, side, r).bytesDown >= s.bytesDown
    ensures WriteStep(s, side, w).bytesUp == s.bytesUp && WriteStep(s, side, w).bytesDown == s.bytesDown
  {
  }

  /**
   * Reading into a slot that still holds data performs no read: only this
   * side's READ interest is cleared, and the slot's buffer has already been
   * cleared (its `remaining()` reset to the capacity) by then.
   */
  lemma ReadIntoFullSlot(s: PipeState, side: Side, r: ReadResult)
    requires s.Of(side).present
    ensures var t := ReadStep(s, side, r);
      t.Of(side) == s.Of(side).(interest := s.Of(side).interest - {OpRead}, remaining := Capacity)
      && t.Of(Other(side)) == s.Of(Other(side))
      && t.bytesUp == s.bytesUp && t.bytesDown == s.bytesDown
  {
  }

  /**
   * A positive read of `n` bytes adds exactly `n` to this side's counter,
   * fills the slot with those bytes, pauses this side's reading and arms the
   * other side's writing.
   */
  lemma PositiveRead(s: PipeState, side: Side, n: Chunk)
    requires !s.Of(side).present && n > 0
    ensures var t := ReadStep(s, side, BytesRead(n));
      t.Counter(side) == s.Counter(side) + n && t.Counter(Other(side)) == s.Counter(Other(side))
      && t.Of(side) == s.Of(side).(present := true, remaining := n, interest := s.Of(side).interest - {OpRead})
      && t.Of(Other(side)) == s.Of(Other(side)).(interest := s.Of(Other(side)).interest + {OpWrite})
  {
  }

  /** A read of zero bytes changes nothing but the cleared buffer. */
  lemma EmptyRead(s: PipeState, side: Side)
    requires !s.Of(side).present
    ensures ReadStep(s, side, BytesRead(0)) == s.With(side, s.Of(side).(remaining := Capacity))
  {
  }

  /**
   * A read of `-1` sets this side's EOF flag and nothing else, then cleans
   * up iff `shouldClose()` now holds; this side's READ interest is kept.
   */
  lemma EndOfStreamRead(s: PipeState, side: Side)
    requires !s.Of(side).present
    ensures var marked := s.With(side, s.Of(side).(eof := true, remaining := Capacity));
      ReadStep(s, side, EndOfStream) == (if Done(marked) then CleanedUp(marked) else marked)
      && ReadStep(s, side, EndOfStream).Of(side).interest == s.Of(side).interest
  {
    var cleared := s.With(side, s.Of(side).(remaining := Capacity));
    assert cleared.With(side, cleared.Of(side).(eof := true)) == s.With(side, s.Of(side).(eof := true, remaining := Capacity));
  }

  /** A failed read or write closes both channels and cancels both keys. */
  lemma IOErrorCleansUp(s: PipeState, side: Side)
    ensures !s.Of(side).present ==> ReadStep(s, side, ReadError) == CleanedUp(s.With(side, s.Of(side).(remaining := Capacity)))
    ensures s.Of(Other(side)).present ==> WriteStep(s, side, WriteError) == CleanedUp(s)
  {
  }

  /** With nothing to send, a writable side stops asking to write, and the pipe is cleaned up iff `shouldClose()`. */
  lemma WriteWithNothingPending(s: PipeState, side: Side, w: WriteResult)
    requires !s.Of(Other(side)).present
    ensures WriteStep(s, side, w) == CloseIfDone(Disarm(s, side, OpWrite))
    ensures WriteStep(s, side, w).Of(side).interest == s.Of(side).interest - {OpWrite}
  {
  }

  /**
   * A write that empties the slot frees it, lets the other side read again
   * and stops this side writing; then the pipe is cleaned up iff
   * `shouldClose()` holds.
   */
  lemma DrainingWrite(s: PipeState, side: Side, room: nat)
    requires s.Of(Other(side)).present && room >= s.Of(Other(side)).remaining
    ensures var before := s.Of(Other(side));
      var freed := s.With(Other(side), before.(present := false, remaining := 0, interest := before.interest + {OpRead}));
      WriteStep(s, side, Took(room)) == CloseIfDone(Disarm(freed, side, OpWrite))
  {
  }

  /** A write that leaves bytes behind changes only the slot's `remaining()` and never closes the pipe. */
  lemma PartialWrite(s: PipeState, side: Side, room: nat)
    requires s.Of(Other(side)).present && room < s.Of(Other(side)).remaining
    ensures var before := s.Of(Other(side));
      WriteStep(s, side, Took(room)) == s.With(Other(side), before.(remaining := before.remaining - room))
  {
  }

  /** `cleanup()` is idempotent. */
  lemma CleanedUpIdempotent(s: PipeState)
    ensures CleanedUp(CleanedUp(s)) == CleanedUp(s)
  {
  }

  /**
   * Data parked in a slot always has its consumer able to take it: the
   * other side's key is armed for WRITE, or its connection is still pending.
   */
  predicate Armed(s: PipeState, side: Side) {
    s.Of(side).present && s.Of(Other(side)).registered ==>
      OpWrite in s.Of(Other(side)).interest || OpConnect in s.Of(Other(side)).interest
  }

  predicate Progress(s: PipeState) {
    Armed(s, Src) && Armed(s, Dest)
  }

  /** Every read and write handler preserves `Progress`. */
  lemma ProgressPreserved(s: PipeState, side: Side, r: ReadResult, w: WriteResult)
    requires Progress(s)
    ensures Progress(ReadStep(s, side, r))
    ensures Progress(WriteStep(s, side, w))
  {
  }

  // ---------------------------------------------------------------------------
  // Pipe ids
  // ---------------------------------------------------------------------------

  /** The shared counter behind `generateId()`. */
  class IdSource {
    var last: nat

    constructor ()
      ensures last == 0
    {
      last := 0;
    }

    /** `ID.addAndGet(1)`: the next id, one more than the last one handed out. */
    method GenerateId() returns (id: nat)
      modifies this
      ensures id == old(last) + 1 && last == id
    {
      last := last + 1;
      id := last;
    }
  }

  // ---------------------------------------------------------------------------
  // The pipe
  // ---------------------------------------------------------------------------

  class Pipe {
    const targetHost: string
    const src: Channel
    const dest: Channel
    const data: DataBuffer
    const srcKey: Key
    const destKey: Key
    const id: nat
    var isSrcEOF: bool
    var isDestEOF: bool
    var bytesUp: nat
    var bytesDown: nat

    /** The two sides are different channels, each with its own key. */
    ghost predicate Valid() {
      src != dest && srcKey != destKey && srcKey.channel == src && destKey.channel == dest
    }

    /** Every object whose state the handlers change. */
    function Objects(): set<object> {
      {this, data, srcKey, destKey, src, dest}
    }

    function EndOf(side: Side): End
      reads this, data, srcKey, destKey, src, dest
    {
      if side == Src then
        End(isSrcEOF, data.srcDataPresent, data.srcRemaining, srcKey.interest, srcKey.valid, src.open)
      else
        End(isDestEOF, data.destDataPresent, data.destRemaining, destKey.interest, destKey.valid, dest.open)
    }

    function State(): PipeState
      reads this, data, srcKey, destKey, src, dest
    {
      PipeState(EndOf(Src), EndOf(Dest), bytesUp, bytesDown)
    }

    /**
     * A new pipe between `src` and `dest` whose `Src` slot holds the
     * `clientHello` bytes already read from the client; they count as the
     * first bytes sent up.
     */
    constructor (targetHost: string, src: Channel, dest: Channel, clientHello: nat, data: DataBuffer,
                 srcKey: Key, destKey: Key, ids: IdSource)
      requires src != dest && srcKey != destKey && srcKey.channel == src && destKey.channel == dest
      modifies data, ids
      ensures Valid()
      ensures this.targetHost == targetHost && this.src == src && this.dest == dest && this.data == data
      ensures this.srcKey == srcKey && this.destKey == destKey
      ensures id == old(ids.last) + 1 && ids.last == id
      ensures !isSrcEOF && !isDestEOF && bytesUp == clientHello && bytesDown == 0
      ensures data.srcDataPresent && data.srcRemaining == clientHello
      ensures data.destDataPresent == old(data.destDataPresent) && data.destRemaining == old(data.destRemaining)
    {
      this.targetHost := targetHost;
      this.src := src;
      this.dest := dest;
      this.data := data;
      this.srcKey := srcKey;
      this.destKey := destKey;
      var next := ids.GenerateId();
      this.id := next;
      isSrcEOF := false;
      isDestEOF := false;
      bytesUp := clientHello;
      bytesDown := 0;
      data.srcDataPresent := true;
      data.srcRemaining := clientHello;
    }

    /** Which slot belongs to a channel of this pipe (`isSource` / `isDestination`). */
    function SideOf(ch: Channel): (r: Option<Side>)
      ensures r.Some? <==> ch == src || ch == dest
    {
      if ch == src then Some(Src) else if ch == dest then Some(Dest) else None
    }

    function KeyOf(side: Side): Key {
      if side == Src then srcKey else destKey
    }

    function ChannelOf(side: Side): Channel {
      if side == Src then src else dest
    }

    /** `findPeer(key)`: the other side's key; a foreign key throws. */
    function FindPeer(key: Key): (r: Option<Key>)
      ensures r.Some? <==> key == srcKey || key == destKey
    {
      if key == srcKey then Some(destKey) else if key == destKey then Some(srcKey) else None
    }

    /** `findPeer(ch)`: the other side's channel; a foreign channel throws. */
    function FindPeerChannel(ch: Channel): (r: Option<Channel>)
      ensures r.Some? <==> SideOf(ch).Some?
    {
      match SideOf(ch)
      case None => None
      case Some(side) => Some(ChannelOf(Other(side)))
    }

    /** `findBuffer(ch)`: the slot a channel reads into. */
    function FindBuffer(ch: Channel): Option<Side> {
      SideOf(ch)
    }

    /** `findOtherBuffer(ch)`: the slot a channel writes out of. */
    function FindOtherBuffer(ch: Channel): (r: Option<Side>)
      ensures r.Some? <==> SideOf(ch).Some?
    {
      match SideOf(ch)
      case None => None
      case Some(side) => Some(Other(side))
    }

    /** `findMyKey(ch)`: the key registered for a channel. */
    function FindMyKey(ch: Channel): (r: Option<Key>)
      ensures r.Some? <==> SideOf(ch).Some?
    {
      match SideOf(ch)
      case None => None
      case Some(side) => Some(KeyOf(side))
    }

    /** The peer of the peer is the key itself, and the two keys are each other's peers. */
    lemma PeerOfPeer(key: Key)
      requires Valid() && FindPeer(key).Some?
      ensures FindPeer(FindPeer(key).value) == Some(key)
      ensures FindPeer(key).value != key
    {
    }

    /** The slot a channel reads into is the slot its peer writes out of, and the key of a channel is that channel's own. */
    lemma BufferOfPeer(ch: Channel)
      requires Valid() && SideOf(ch).Some?
      ensures FindOtherBuffer(FindPeerChannel(ch).value) == FindBuffer(ch)
      ensures FindMyKey(ch).value.channel == ch
      ensures FindPeer(FindMyKey(ch).value) == FindMyKey(FindPeerChannel(ch).value)
    {
    }

    /** A key of this pipe sits on its side's channel, and its validity and interest are that side's. */
    lemma KeySide(key: Key)
      requires Valid() && (key == srcKey || key == destKey)
      ensures SideOf(key.channel).Some? && KeyOf(SideOf(key.channel).value) == key
      ensures State().Of(SideOf(key.channel).value).registered == key.valid
      ensures State().Of(SideOf(key.channel).value).open == key.channel.open
    {
    }

    /** `isEOF()`: either side has seen end of stream. */
    predicate IsEOF()
      reads this, data, srcKey, destKey, src, dest
      ensures IsEOF() <==> EitherEOF(State())
    {
      isSrcEOF || isDestEOF
    }

    /** `hasData()`: either slot holds data still to be written. */
    predicate HasData()
      reads this, data, srcKey, destKey, src, dest
      ensures HasData() <==> Pending(State())
    {
      data.srcDataPresent || data.destDataPresent
    }

    /** `shouldClose()`: the pipe's state is `Done`. */
    predicate ShouldClose()
      reads this, data, srcKey, destKey, src, dest
      ensures ShouldClose() <==> Done(State())
    {
      IsEOF() && !HasData()
    }

    /** `isSelfEOF(ch)`: the EOF flag of the channel's own side. */
    function IsSelfEOF(ch: Channel): (r: Option<bool>)
      reads this, data, srcKey, destKey, src, dest
      ensures r.Some? <==> SideOf(ch).Some?
      ensures r.Some? ==> r.value == State().Of(SideOf(ch).value).eof
    {
      if ch == src then Some(isSrcEOF) else if ch == dest then Some(isDestEOF) else None
    }

    /** `isOtherEOF(ch)`: the EOF flag of the other side. */
    function IsOtherEOF(ch: Channel): (r: Option<bool>)
      reads this, data, srcKey, destKey, src, dest
      ensures r.Some? <==> SideOf(ch).Some?
      ensures r.Some? ==> r.value == State().Of(Other(SideOf(ch).value)).eof
    {
      if ch == src then Some(isDestEOF) else if ch == dest then Some(isSrcEOF) else None
    }

    /** `markEOF(ch)`: sets only the given side's EOF flag; a foreign channel throws and changes nothing. */
    method MarkEOF(ch: Channel) returns (ok: bool)
      modifies this
      ensures ok <==> SideOf(ch).Some?
      ensures ok ==> State() == old(State()).With(SideOf(ch).value, old(State()).Of(SideOf(ch).value).(eof := true))
      ensures !ok ==> State() == old(State())
    {
      if ch == src {
        isSrcEOF := true;
      } else if ch == dest {
        isDestEOF := true;
      } else {
        return false;
      }
      return true;
    }

    /** `cleanup()`: closes both channels and cancels both keys. */
    method Cleanup()
      requires Valid()
      modifies srcKey, destKey, src, dest
      ensures State() == CleanedUp(old(State()))
    {
      src.open := false;
      dest.open := false;
      srcKey.valid := false;
      destKey.valid := false;
    }

    /** `buffer.clear()` on a side's slot. */
    method ClearSlot(side: Side)
      modifies data
      ensures State() == old(State()).With(side, old(State()).Of(side).(remaining := Capacity))
    {
      if side == Src { data.srcRemaining := Capacity; } else { data.destRemaining := Capacity; }
    }

    /** `key.interestOps(key.interestOps() and op.inv())` on a side's key. */
    method Pause(side: Side, op: Interest)
      requires Valid()
      modifies KeyOf(side)
      ensures State() == Disarm(old(State()), side, op)
    {
      var key := KeyOf(side);
      key.interest := key.interest - {op};
    }

    /** `key.interestOps(key.interestOps() or op)` on a side's key. */
    method Resume(side: Side, op: Interest)
      requires Valid()
      modifies KeyOf(side)
      ensures State() == Arm(old(State()), side, op)
    {
      var key := KeyOf(side);
      key.interest := key.interest + {op};
    }

    /** Counting `n` bytes read on a side, `flip()` and `markHasData`: the slot now holds exactly those bytes. */
    method Fill(side: Side, n: nat)
      modifies this, data
      ensures var s := old(State());
        var counted := if side == Src then s.(bytesUp := s.bytesUp + n) else s.(bytesDown := s.bytesDown + n);
        State() == counted.With(side, counted.Of(side).(present := true, remaining := n))
    {
      if side == Src {
        bytesUp := bytesUp + n;
        data.srcRemaining := n;
        data.srcDataPresent := true;
      } else {
        bytesDown := bytesDown + n;
        data.destRemaining := n;
        data.destDataPresent := true;
      }
    }

    /** What `ch.write(buffer)` leaves in a slot: `remaining()` less what the socket took. */
    method Drain(from: Side, left: nat)
      modifies data
      ensures State() == old(State()).With(from, old(State()).Of(from).(remaining := left))
    {
      if from == Src { data.srcRemaining := left; } else { data.destRemaining := left; }
    }

    /** `markHasNoData`: the slot no longer holds data. */
    method Release(from: Side)
      modifies data
      ensures State() == old(State()).With(from, old(State()).Of(from).(present := false))
    {
      if from == Src { data.srcDataPresent := false; } else { data.destDataPresent := false; }
    }

    /** `handleCanRead(ch)` with the read's result `r`; a foreign channel throws before anything changes. */
    method HandleCanRead(ch: Channel, r: ReadResult) returns (ok: bool)
      requires Valid()
      modifies Objects()
      ensures ok <==> SideOf(ch).Some?
      ensures ok ==> State() == ReadStep(old(State()), SideOf(ch).value, r)
      ensures !ok ==> State() == old(State())
    {
      var found := FindBuffer(ch);
      if found.None? {
        return false;
      }
      var side := found.value;
      ClearSlot(side);
      if (side == Src && data.srcDataPresent) || (side == Dest && data.destDataPresent) {
        Pause(side, OpRead);
        return true;
      }
      match r {
        case ReadError =>
          Cleanup();
        case EndOfStream =>
          var marked := MarkEOF(ch);
          if ShouldClose() {
            Cleanup();
          }
        case BytesRead(n) =>
          if n > 0 {
            Fill(side, n);
            Pause(side, OpRead);
            Resume(Other(side), OpWrite);
          }
      }
      return true;
    }

    /** `handleCanWrite(ch)` with the write's result `w`; a foreign channel throws before anything changes. */
    method HandleCanWrite(ch: Channel, w: WriteResult) returns (ok: bool)
      requires Valid()
      modifies Objects()
      ensures ok <==> SideOf(ch).Some?
      ensures ok ==> State() == WriteStep(old(State()), SideOf(ch).value, w)
      ensures !ok ==> State() == old(State())
    {
      var found := FindOtherBuffer(ch);
      if found.None? {
        return false;
      }
      var from := found.value;
      var side := Other(from);
      assert side == SideOf(ch).value;
      if (side == Src && !data.destDataPresent) || (side == Dest && !data.srcDataPresent) {
        Pause(side, OpWrite);
        if ShouldClose() {
          Cleanup();
        }
        return true;
      }
      match w {
        case WriteError =>
          Cleanup();
          return true;
        case Took(room) =>
          var remaining := if from == Src then data.srcRemaining else data.destRemaining;
          var left := if room < remaining then remaining - room else 0;
          Drain(from, left);
          if left == 0 {
            Resume(from, OpRead);
            Pause(side, OpWrite);
            Release(from);
          }
      }
      if ShouldClose() {
        Cleanup();
      }
      return true;
    }
  }
}
